/** Callbacks may arrive before, between or after the responses and aliases they belong to: no transaction
    leaves a correlated callback unprocessed, and a committed attempt ends in the strongest state of all the
    evidence that exists for it, whatever the arrival order, batching or duplication. */
module Convergence {
  import opened Prelude
  import opened Records
  import opened Decision
  import opened Routing
  import opened Authority
  import opened Quotas
  import opened Eligibility
  import opened Engine
  import opened EngineInvariant
  import opened EngineSteps
  import opened InboxSteps
  import opened EngineWrites
  import opened EngineFrames
  import opened EngineRuns
  import opened AppliedEvidence

  /** Only rows under these aliases may still have to be processed. */
  ghost predicate WaitingOnly(db: Db, aliases: set<Alias>) {
    forall alias, k: nat | Waiting(db, alias, k) :: alias in aliases
  }

  ghost predicate NothingWaiting(db: Db) { WaitingOnly(db, {}) }

  // -------------------------------------------------------- which aliases a write adds

  /** An alias that a settling write adds names an attempt that did not exist before. */
  ghost predicate NamesOnlyNew(a: Db, b: Db) {
    forall alias | alias in b.correlations && alias !in a.correlations ::
      alias.reference.AttemptReference? && !Present(a, alias.reference.attempt)
  }

  lemma StoredNames(db: Db, operation: Id, e: Delivery)
    requires operation in db.deliveries
    ensures NamesOnlyNew(db, Store(db, operation, e))
  {
  }

  lemma MergeNames(db: Db, id: AttemptId, outcome: Outcome, source: Source, time: Time)
    ensures NamesOnlyNew(db, Merge(db, id, outcome, source, time))
  {
    hide MergeOutcome, IntentEligible, AvailableProviders, NextProvider, Restrict, RegisterScheduled;
    if Addressable(db, id) {
      var d := db.deliveries[id.operation];
      var env := Restrict(db.env, StepAt(db, id).instance, outcome.retryAt);
      var intent := IntentAt(db, id);
      var next := NextProvider(AvailableProviders(env, d.saved, time, Some(intent)), AttemptAt(db, id).route.position);
      StoredNames(db, id.operation, MergeOutcome(d, id.index, outcome, IntentEligible(env.world, d.saved, intent), next, time));
    }
  }

  lemma AttemptNames(db: Db, w: Write)
    requires DbValid(db) && Allowed(db, w)
    requires w.Claiming? || w.Finishing? || w.Recovering?
    ensures NamesOnlyNew(db, Perform(db, w))
  {
    hide DbValid, ClaimAuthorization, FinishAuthorization, RecoverOverdue, IntentEligible, ClaimVerdictOf;
  }

  lemma GatingNames(db: Db, w: Write)
    requires DbValid(db) && Allowed(db, w) && w.Gating?
    ensures NamesOnlyNew(db, Perform(db, w))
  {
    hide DbValid, Gate, GateVerdictOf, ViewGate, NamesOnlyNew, RegisterScheduled, Count, ExtendAdmission, SendLimits;
    var rows := Gate(db.deliveries[w.attempt.operation], w.attempt.index, w.jobRevision, w.time, w.mergeTime,
      ViewGate(db, w.attempt, w.time, w.mergeTime));
    StoredNames(db, w.attempt.operation, rows);
    SameNamesAs(db, Store(db, w.attempt.operation, rows), Perform(db, w));
  }

  lemma SameNamesAs(a: Db, b: Db, c: Db)
    requires NamesOnlyNew(a, b) && c.correlations == b.correlations
    ensures NamesOnlyNew(a, c)
  {
  }

  lemma EvidenceNames(db: Db, w: Write)
    requires DbValid(db) && Allowed(db, w)
    requires w.Reporting? || w.Applying?
    ensures NamesOnlyNew(db, Perform(db, w))
  {
    hide DbValid, Merge;
    match w
    case Reporting(id, outcome, time) => MergeNames(db, id, outcome, Response, time);
    case Applying(alias, k, time) =>
      MergeNames(db, db.correlations[alias], CallbackOutcome(db.inbox[k]), Callback(k), time);
  }

  lemma OperationNames(db: Db, w: Write)
    requires DbValid(db) && Allowed(db, w)
    requires w.Expiring? || w.Closing? || w.Admitting? || w.Activating? || w.Starting? || w.Sending?
    ensures NamesOnlyNew(db, Perform(db, w))
  {
    hide DbValid, Expire, Terminate, Admit, RequestSendLocked, ChooseTarget, SendExplicit, ScheduleExplicit, Activate,
      RequireAccess, CaptureAuthority, Count;
    match w
    case Admitting(operation, input, time) => AdmissionRecords(db, operation, input, time);
    case Sending(operation, principal, action, time) => RequestDecidedFirst(db, operation, principal, action, time);
    case _ =>
  }

  lemma SettlingNames(db: Db, w: Write)
    requires DbValid(db) && Allowed(db, w) && Settling(w)
    ensures NamesOnlyNew(db, Perform(db, w))
  {
    hide DbValid, NamesOnlyNew, Administer, Cleanup;
    match w
    case Claiming(_, _, _) => AttemptNames(db, w);
    case Finishing(_, _, _) => AttemptNames(db, w);
    case Gating(_, _, _, _) => GatingNames(db, w);
    case Reporting(_, _, _) => EvidenceNames(db, w);
    case Applying(_, _, _) => EvidenceNames(db, w);
    case Recovering(_, _) => AttemptNames(db, w);
    case Invoking(_) => SameNames(db, Perform(db, w));
    case Administering(_) => SameNames(db, Perform(db, w));
    case Cleaning(_, _) => SameNames(db, Perform(db, w));
    case Guessing(_, _, _) => SameNames(db, Perform(db, w));
    case Forgetting(_, _) => SameNames(db, Perform(db, w));
    case _ => OperationNames(db, w);
  }

  lemma SameNames(a: Db, b: Db)
    requires b.correlations == a.correlations
    ensures NamesOnlyNew(a, b)
  {
  }

  /** No settling write makes a callback wait. */
  lemma SettlingWaits(db: Db, w: Write, alias: Alias, k: nat)
    requires DbValid(db) && Allowed(db, w) && Settling(w) && Waiting(Perform(db, w), alias, k)
    ensures Waiting(db, alias, k)
  {
    hide DbValid, DbEvolves, Perform, Allowed;
    SettlingNames(db, w);
    WriteKeeps(db, w);
    SettlingInbox(db, w);
    var b := Perform(db, w);
    assert k < |db.inbox| && db.inbox[k] == b.inbox[k];
    ValidTables(db);
    assert ReferenceKnown(db, db.inbox[k].reference);
    assert alias in db.correlations;
    WaitingBefore(db, b, alias, k);
  }

  lemma SettlingInbox(db: Db, w: Write)
    requires DbValid(db) && Allowed(db, w) && Settling(w)
    ensures |Perform(db, w).inbox| == |db.inbox|
    ensures forall k | 0 <= k < |db.inbox| && !Perform(db, w).inbox[k].processed && !Perform(db, w).inbox[k].dropped ::
              Perform(db, w).inbox[k] == db.inbox[k]
  {
    hide DbValid, Perform;
    WriteObserves(db, w);
  }

  lemma WaitingBefore(a: Db, b: Db, alias: Alias, k: nat)
    requires DbValid(a) && DbEvolves(a, b) && alias in a.correlations
    requires Waiting(b, alias, k) && k < |a.inbox| && a.inbox[k] == b.inbox[k]
    ensures Waiting(a, alias, k)
  {
    assert AliasValid(a, alias, a.correlations[alias]);
    AddressableLater(a, b, a.correlations[alias]);
  }

  lemma WaitingStable(aliases: set<Alias>)
    ensures Stable(db => WaitingOnly(db, aliases))
  {
    hide DbValid, Allowed, Perform;
    forall db: Db, w: Write | Allowed(db, w) && Settling(w) && DbValid(db) && WaitingOnly(db, aliases)
      ensures WaitingOnly(Perform(db, w), aliases)
    {
      forall alias, k: nat | Waiting(Perform(db, w), alias, k) ensures alias in aliases {
        SettlingWaits(db, w, alias, k);
      }
    }
  }

  // --------------------------------------------------- what a batch makes wait

  function EventAliases(db: Db, instance: Id, event: CallbackEvent): set<Alias> {
    set r | r in EventReferences(db, instance, event) :: Alias(instance, r)
  }

  function BatchAliases(db: Db, instance: Id, events: seq<CallbackEvent>): set<Alias> {
    set r | r in BatchReferences(db, instance, events) :: Alias(instance, r)
  }

  lemma RegisterWaits(db: Db, alias: Alias, id: AttemptId, aliases: set<Alias>)
    requires WaitingOnly(db, aliases) && Register(db, alias, id).Some?
    ensures WaitingOnly(Register(db, alias, id).value, aliases + {alias})
  {
    var b := Register(db, alias, id).value;
    forall other, k: nat | Waiting(b, other, k) ensures other in aliases + {alias} {
      if other != alias {
        assert Waiting(db, other, k);
      }
    }
  }

  lemma InsertRowWaits(db: Db, instance: Id, event: CallbackEvent, aliases: set<Alias>)
    requires WaitingOnly(db, aliases)
    ensures WaitingOnly(InsertRow(db, instance, event), aliases + {Alias(instance, event.reference)})
  {
    var b := InsertRow(db, instance, event);
    forall alias, k: nat | Waiting(b, alias, k) ensures alias in aliases + {Alias(instance, event.reference)} {
      if k < |db.inbox| {
        assert b.inbox[k] == db.inbox[k];
        assert Waiting(db, alias, k);
      }
    }
  }

  lemma InsertEventWaits(db: Db, instance: Id, event: CallbackEvent, aliases: set<Alias>)
    requires WaitingOnly(db, aliases) && InsertEvent(db, instance, event).Some?
    ensures WaitingOnly(InsertEvent(db, instance, event).value, aliases + EventAliases(db, instance, event))
  {
    hide Waiting, WaitingOnly;
    var target := EventTarget(db, instance, event);
    var own := Alias(instance, event.reference);
    if target.None? {
      InsertRowWaits(db, instance, event, aliases);
      MoreAliases(InsertEvent(db, instance, event).value, aliases + {own}, aliases + EventAliases(db, instance, event));
    } else {
      var alias := Alias(instance, ProviderReference(event.request.value));
      RegisterWaits(db, alias, target.value, aliases);
      InsertRowWaits(Register(db, alias, target.value).value, instance, event, aliases + {alias});
      MoreAliases(InsertEvent(db, instance, event).value, aliases + {alias} + {own}, aliases + EventAliases(db, instance, event));
    }
  }

  lemma MoreAliases(db: Db, few: set<Alias>, many: set<Alias>)
    requires WaitingOnly(db, few) && few <= many
    ensures WaitingOnly(db, many)
  {
  }

  lemma {:induction false} InsertEventsWait(db: Db, instance: Id, events: seq<CallbackEvent>)
    requires NothingWaiting(db) && InsertEvents(db, instance, events).Some?
    ensures WaitingOnly(InsertEvents(db, instance, events).value, BatchAliases(db, instance, events))
  {
    hide Waiting, WaitingOnly;
    if events == [] {
      MoreAliases(db, {}, BatchAliases(db, instance, events));
    } else {
      var earlier := events[..|events|-1];
      var last := events[|events|-1];
      InsertEventsWait(db, instance, earlier);
      InsertedTargets(db, instance, earlier);
      var before := InsertEvents(db, instance, earlier).value;
      InsertEventWaits(before, instance, last, BatchAliases(db, instance, earlier));
      assert EventReferences(before, instance, last) == EventReferences(db, instance, last);
      MoreAliases(InsertEvents(db, instance, events).value,
        BatchAliases(db, instance, earlier) + EventAliases(before, instance, last), BatchAliases(db, instance, events));
    }
  }

  // ------------------------------------------------------- what reconciliation clears

  lemma ApplyRowClears(db: Db, alias: Alias, id: AttemptId, revision: nat, time: Time, k: nat, j: nat)
    requires DbValid(db) && k < |db.inbox| && alias in db.correlations && db.correlations[alias] == id
    requires Addressable(db, id) && StepAt(db, id).instanceRevision == revision
    requires Applicable(db.inbox[k], alias.instance, alias.reference, revision) && !db.inbox[k].processed
    ensures Waiting(ApplyRow(db, id, k, time), alias, j) ==> j != k && Waiting(db, alias, j)
  {
    hide DbValid, Merge;
    MergeTables(db, id, CallbackOutcome(db.inbox[k]), Callback(k), time);
    if Waiting(ApplyRow(db, id, k, time), alias, j) {
      SettlingWaits(db, Applying(alias, k, time), alias, j);
    }
  }

  lemma {:induction false} ApplyClears(db: Db, alias: Alias, id: AttemptId, revision: nat, time: Time, count: nat, j: nat)
    requires DbValid(db) && j < count <= |db.inbox|
    requires alias in db.correlations && db.correlations[alias] == id
    requires Addressable(db, id) && StepAt(db, id).instanceRevision == revision
    ensures !Waiting(ApplyRows(db, alias, id, revision, time, count), alias, j)
  {
    hide DbValid, DbEvolves, Merge, ApplyRow, Waiting, Stable, Addressable;
    var always: Db -> bool := _ => true;
    var before := ApplyRows(db, alias, id, revision, time, count - 1);
    AlwaysStable(always);
    Stays(db, always);
    ApplyReached(db, db, alias, time, count - 1, always);
    AliasTargetKept(db, before, alias, always);
    if j < count - 1 {
      ApplyClears(db, alias, id, revision, time, count - 1, j);
    }
    if Applicable(before.inbox[count - 1], alias.instance, alias.reference, revision) && !before.inbox[count - 1].processed {
      ApplyRowClears(before, alias, id, revision, time, count - 1, j);
    } else if j == count - 1 {
      NotWaiting(before, alias, id, revision, j);
    }
  }

  lemma NotWaiting(db: Db, alias: Alias, id: AttemptId, revision: nat, j: nat)
    requires j < |db.inbox| && alias in db.correlations && db.correlations[alias] == id
    requires Addressable(db, id) && StepAt(db, id).instanceRevision == revision
    requires !Applicable(db.inbox[j], alias.instance, alias.reference, revision) || db.inbox[j].processed
    ensures !Waiting(db, alias, j)
  {
  }

  lemma AlwaysStable(inv: Db -> bool)
    requires forall db :: inv(db)
    ensures Stable(inv)
  {
  }

  lemma ReconcileClears(db: Db, alias: Alias, time: Time, mergeTime: Time, j: nat)
    requires DbValid(db)
    ensures !Waiting(Reconcile(db, alias, time, mergeTime), alias, j)
  {
    hide DbValid, DbEvolves, Waiting, Stable, Addressable;
    WaitingBound(Reconcile(db, alias, time, mergeTime), alias, j);
    if alias in db.correlations {
      var id := db.correlations[alias];
      ExpireValid(db, id.operation, time);
      AliasAddressable(db, alias, time);
      var expired := ExpireOperation(db, id.operation, time);
      if j < |expired.inbox| {
        ApplyClears(expired, alias, id, StepAt(expired, id).instanceRevision, mergeTime, |expired.inbox|, j);
      }
    }
  }

  lemma AliasAddressable(db: Db, alias: Alias, time: Time)
    requires DbValid(db) && alias in db.correlations
    ensures var expired := ExpireOperation(db, db.correlations[alias].operation, time);
            && alias in expired.correlations && expired.correlations[alias] == db.correlations[alias]
            && Addressable(expired, db.correlations[alias])
  {
    var id := db.correlations[alias];
    assert AliasValid(db, alias, id);
    ExpireValid(db, id.operation, time);
    AddressableLater(db, ExpireOperation(db, id.operation, time), id);
  }

  lemma WaitingBound(db: Db, alias: Alias, j: nat)
    ensures Waiting(db, alias, j) ==> j < |db.inbox| && alias in db.correlations
  {
  }

  lemma ReconcileWaits(db: Db, alias: Alias, time: Time, mergeTime: Time, aliases: set<Alias>)
    requires DbValid(db) && WaitingOnly(db, aliases)
    ensures DbValid(Reconcile(db, alias, time, mergeTime))
    ensures WaitingOnly(Reconcile(db, alias, time, mergeTime), aliases - {alias})
  {
    hide DbValid, DbEvolves, Waiting, Reconcile, Stable;
    var inv: Db -> bool := x => WaitingOnly(x, aliases);
    WaitingStable(aliases);
    Stays(db, inv);
    ReconcileReached(db, db, alias, time, mergeTime, inv);
    var r := Reconcile(db, alias, time, mergeTime);
    forall other, k: nat | Waiting(r, other, k) ensures other in aliases - {alias} {
      ReconcileClears(db, alias, time, mergeTime, k);
    }
  }

  lemma {:induction false} ReconcileAllWaits(db: Db, instance: Id, references: seq<Reference>, time: Time, mergeTime: Time,
                                             aliases: set<Alias>)
    requires DbValid(db) && WaitingOnly(db, aliases)
    ensures DbValid(ReconcileAll(db, instance, references, time, mergeTime))
    ensures WaitingOnly(ReconcileAll(db, instance, references, time, mergeTime),
              aliases - (set r | r in references :: Alias(instance, r)))
  {
    hide DbValid, WaitingOnly, Reconcile;
    if references == [] {
      assert aliases - (set r | r in references :: Alias(instance, r)) == aliases;
    } else {
      var earlier := references[..|references|-1];
      var last := Alias(instance, references[|references|-1]);
      ReconcileAllWaits(db, instance, earlier, time, mergeTime, aliases);
      var rest := aliases - (set r | r in earlier :: Alias(instance, r));
      ReconcileWaits(ReconcileAll(db, instance, earlier, time, mergeTime), last, time, mergeTime, rest);
      assert references == earlier + [references[|references|-1]];
      assert rest - {last} == aliases - (set r | r in references :: Alias(instance, r));
    }
  }

  lemma IngestSettles(db: Db, instance: Id, events: seq<CallbackEvent>, order: seq<Reference>, time: Time, mergeTime: Time)
    requires DbValid(db) && NothingWaiting(db) && EventsKnown(db, events)
    requires Enumerates(order, BatchReferences(db, instance, events))
    ensures NothingWaiting(Ingest(db, instance, events, order, time, mergeTime))
  {
    hide DbValid, DbEvolves, WaitingOnly, Stable, Inductive;
    if InsertEvents(db, instance, events).Some? {
      var inserted := InsertEvents(db, instance, events).value;
      var always: Db -> bool := _ => true;
      Stays(db, always);
      AlwaysInductive(always);
      InsertAllReached(db, db, instance, events, always);
      InsertEventsWait(db, instance, events);
      ReconcileAllWaits(inserted, instance, order, time, mergeTime, BatchAliases(db, instance, events));
      Emptied(BatchReferences(db, instance, events), order, instance);
    }
  }

  lemma Emptied(references: set<Reference>, order: seq<Reference>, instance: Id)
    requires Enumerates(order, references)
    ensures (set r | r in references :: Alias(instance, r)) - (set r | r in order :: Alias(instance, r)) == {}
  {
    forall r | r in references ensures r in order {
      assert r in (set x | x in order);
    }
  }

  lemma AlwaysInductive(inv: Db -> bool)
    requires forall db :: inv(db)
    ensures Inductive(inv)
  {
  }

  lemma AcknowledgeSettles(db: Db, id: AttemptId, request: Option<Id>, time: Time, mergeTime: Time)
    requires DbValid(db) && NothingWaiting(db) && Known(db, id) && Addressable(db, id)
    requires Acknowledge(db, id, request, time, mergeTime).Some?
    ensures NothingWaiting(Acknowledge(db, id, request, time, mergeTime).value)
  {
    hide DbValid, DbEvolves, WaitingOnly, Stable, Inductive, Merge, Reconcile, AliasValid, Known;
    var accepted := Merge(db, id, AcceptedOutcome, Response, mergeTime);
    var inv: Db -> bool := x => WaitingOnly(x, {});
    WaitingStable({});
    Stays(db, inv);
    Write1(db, db, Reporting(id, AcceptedOutcome, mergeTime), inv);
    if request.Some? {
      var alias := Alias(StepAt(db, id).instance, ProviderReference(request.value));
      RequestAliasValid(db, accepted, id, request.value);
      RegisterValid(accepted, alias, id);
      RegisterWaits(accepted, alias, id, {});
      var aliased := Register(accepted, alias, id).value;
      var one := {alias};
      var none: set<Alias> := {};
      assert none + one == one && one - {alias} == none;
      ReconcileWaits(aliased, alias, time, mergeTime, one);
    }
  }

  lemma AcceptedSettles(db: Db, step: Step)
    requires DbValid(db) && NothingWaiting(db) && Honest(db, step) && step.AcceptedStep?
    ensures NothingWaiting(Transact(db, step))
  {
    hide DbValid, DbEvolves, WaitingOnly, Stable, Inductive, Acknowledge, Known, EventsKnown, InsertEvents, Ingest;
    var id := step.attempt;
    var inv: Db -> bool := x => WaitingOnly(x, {});
    WaitingStable({});
    Stays(db, inv);
    ExpireReached(db, db, id.operation, step.time, inv);
    var expired := ExpireOperation(db, id.operation, step.time);
    KnownWhenReached(db, expired, id, inv);
    var acknowledged := Acknowledge(expired, id, step.request, step.time, step.later);
    if acknowledged.Some? {
      var always: Db -> bool := _ => true;
      AlwaysInductive(always);
      Stays(expired, always);
      AcknowledgeSettles(expired, id, step.request, step.time, step.later);
      AcknowledgeReached(expired, expired, id, step.request, step.time, step.later, always);
      EventsKnownLater(db, expired, step.events);
      EventsKnownLater(expired, acknowledged.value, step.events);
      if InsertEvents(acknowledged.value, StepAt(expired, id).instance, step.events).Some? {
        IngestSettles(acknowledged.value, StepAt(expired, id).instance, step.events, step.order, step.time, step.later);
      }
    }
  }

  /** No transaction leaves behind a callback that it could have applied. */
  lemma StepSettles(db: Db, step: Step)
    requires DbValid(db) && NothingWaiting(db) && Honest(db, step)
    ensures NothingWaiting(Transact(db, step))
  {
    hide DbValid, DbEvolves, WaitingOnly, Stable, EventsKnown, Known;
    if step.AcceptedStep? {
      AcceptedSettles(db, step);
    } else if step.IngestStep? {
      IngestSettles(db, step.instance, step.events, step.order, step.time, step.later);
    } else {
      var inv: Db -> bool := x => WaitingOnly(x, {});
      WaitingStable({});
      Stays(db, inv);
      SettledStepReached(db, db, step, inv);
    }
  }

  lemma {:induction false} RunSettles(db: Db, steps: seq<Step>)
    requires DbValid(db) && NothingWaiting(db) && HonestRun(db, steps)
    ensures NothingWaiting(Run(db, steps))
  {
    hide DbValid, DbEvolves, NothingWaiting, Honest, Transact;
    if steps != [] {
      RunSettles(db, steps[..|steps|-1]);
      RunsOnlyEvolve(db, steps[..|steps|-1]);
      StepSettles(Run(db, steps[..|steps|-1]), steps[|steps|-1]);
    }
  }

  /** In every reachable state no correlated callback waits. */
  lemma NoCallbackWaits(db: Db)
    requires Reachable(db)
    ensures NothingWaiting(db)
  {
    hide DbValid, HonestRun, Run, EmptyDb, NothingWaiting;
    var settings, clock, steps :| HonestRun(EmptyDb(settings, clock), steps) && db == Run(EmptyDb(settings, clock), steps);
    EmptyValid(settings, clock);
    EmptySettled(settings, clock);
    RunSettles(EmptyDb(settings, clock), steps);
  }

  lemma EmptySettled(settings: Settings, clock: Time)
    ensures NothingWaiting(EmptyDb(settings, clock))
  {
  }

  // ------------------------------------------------------- what a committed attempt ends in

  /** The states reported for an attempt other than by callbacks: responses, local checks and recovery. */
  ghost function DirectStates(db: Db, id: AttemptId): set<AttemptState> {
    set i | 0 <= i < |db.observations| && db.observations[i].attempt == id && !db.observations[i].source.Callback? ::
      db.observations[i].state
  }

  /** The states that the received callbacks report for an attempt, applied or not. */
  ghost function CallbackStates(db: Db, id: AttemptId): set<AttemptState> {
    set k | 0 <= k < |db.inbox| && Matched(db, db.inbox[k], id) && !db.inbox[k].dropped :: db.inbox[k].status
  }

  ghost function EvidenceFor(db: Db, id: AttemptId): set<AttemptState> {
    {Dispatching} + DirectStates(db, id) + CallbackStates(db, id)
  }

  /** What was applied to an attempt is exactly the evidence that exists for it. */
  lemma AppliedIsEvidence(db: Db, id: AttemptId, s: AttemptState)
    requires NothingWaiting(db) && RowsApplied(db)
    ensures s in StatesOf(db.observations, id) <==> s in DirectStates(db, id) + CallbackStates(db, id)
  {
    StatesOfMembers(db.observations, id, s);
    if s in StatesOf(db.observations, id) {
      var i :| 0 <= i < |db.observations| && db.observations[i].attempt == id && db.observations[i].state == s;
      if db.observations[i].source.Callback? {
        assert AppliedAt(db.observations, i, db.observations[i].source.row);
      }
    }
    if s in CallbackStates(db, id) {
      var k :| 0 <= k < |db.inbox| && Matched(db, db.inbox[k], id) && !db.inbox[k].dropped && db.inbox[k].status == s;
      assert !Waiting(db, NamedBy(db.inbox[k]), k);
      var i: nat :| AppliedAt(db.observations, i, k);
      assert db.observations[i].attempt == id;
    }
  }

  /** Inbox retention removes no evidence of any attempt: it spares every row that an alias can reach. */
  lemma RetentionKeepsEvidence(db: Db, places: set<nat>, time: Time, id: AttemptId)
    ensures EvidenceFor(ForgetCallbacks(db, places, time), id) == EvidenceFor(db, id)
  {
    var after := ForgetCallbacks(db, places, time);
    forall k | 0 <= k < |db.inbox|
      ensures Matched(after, after.inbox[k], id) && !after.inbox[k].dropped <==> Matched(db, db.inbox[k], id) && !db.inbox[k].dropped
    {
    }
    assert DirectStates(after, id) == DirectStates(db, id);
    assert CallbackStates(after, id) == CallbackStates(db, id);
  }

  /** In every reachable state, a committed attempt is in the strongest state of all evidence that exists for it:
      uncertain < accepted < failed < delivered. */
  lemma StateIsStrongestEvidence(db: Db, id: AttemptId)
    requires Reachable(db) && Known(db, id)
    ensures AttemptAt(db, id).evidence.state in EvidenceFor(db, id)
    ensures forall s | s in EvidenceFor(db, id) :: Rank(s) <= Rank(AttemptAt(db, id).evidence.state)
  {
    hide DbValid, Reachable, NothingWaiting, RowsApplied, Matched;
    NoCallbackWaits(db);
    EvidenceHolds(db);
    var history := StatesOf(db.observations, id);
    StatesOfMembers(db.observations, id, Dispatching);
    FoldIsStrongest(Dispatching, history);
    forall s ensures s in history <==> s in DirectStates(db, id) + CallbackStates(db, id) {
      AppliedIsEvidence(db, id, s);
    }
  }

  /** Two deployments that hold the same evidence for a committed attempt agree on its state, however its
      responses and callbacks were interleaved, batched or repeated. */
  lemma ArrivalOrderIsIrrelevant(a: Db, b: Db, id: AttemptId)
    requires Reachable(a) && Reachable(b) && Known(a, id) && Known(b, id)
    requires EvidenceFor(a, id) == EvidenceFor(b, id)
    ensures AttemptAt(a, id).evidence.state == AttemptAt(b, id).evidence.state
  {
    hide Reachable, EvidenceFor;
    StateIsStrongestEvidence(a, id);
    StateIsStrongestEvidence(b, id);
    RankInjective(AttemptAt(a, id).evidence.state, AttemptAt(b, id).evidence.state);
  }

  /** In every reachable state each received event is kept once and applied at most once, and then to the attempt
      that its reference names. */
  lemma EachRowAppliedOnce(db: Db, i: nat, j: nat, k: nat)
    requires Reachable(db) && AppliedAt(db.observations, i, k)
    ensures k < |db.inbox| && db.inbox[k].processed && Matched(db, db.inbox[k], db.observations[i].attempt)
    ensures AppliedAt(db.observations, j, k) ==> i == j
    ensures KeysUnique(db.inbox)
  {
    hide DbValid, Reachable, StatesFollow;
    EvidenceHolds(db);
  }
}
