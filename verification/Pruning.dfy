/** Quota cleanup is invisible to the engine: a run with it and the same run without it do the same. */
module Pruning {
  import opened Prelude
  import opened Records
  import opened Routing
  import opened Authority
  import opened Quotas
  import opened QuotaProofs
  import opened Eligibility
  import opened Engine
  import opened EngineInvariant
  import opened EngineSteps
  import opened InboxSteps
  import opened EngineWrites
  import opened EngineFrames
  import opened EngineRuns
  import opened LedgerRecords
  import opened Windows
  import Rejection

  // --------------------------------------------------- who owns an attempt's admission event

  /** The admission event of an attempt is allocated to the recipient of its operation only. */
  predicate OwnedBy(db: Db, a: Allocation) {
    a.kind == Kind.Admission && a.event.AttemptEvent? ==>
      && a.event.operation in db.deliveries
      && a == Allocation(RecipientScope, db.deliveries[a.event.operation].saved.recipient, Kind.Admission, a.event)
  }

  ghost predicate LedgerOwned(db: Db) {
    LedgerSound(db) && forall a | a in db.env.ledger.allocations :: OwnedBy(db, a)
  }

  lemma OwnedLater(a: Db, b: Db, x: Allocation)
    requires DbEvolves(a, b) && OwnedBy(a, x)
    ensures OwnedBy(b, x)
  {
  }

  lemma CountedAllocation(l: Ledger, limits: seq<Limit>, event: EventId, time: Time, x: Allocation) returns (k: nat)
    requires x in Count(l, limits, event, time).allocations && x !in l.allocations
    ensures k < |limits| && x == AllocationFor(limits[k], event)
  {
    CountShape(l, limits, event, time);
    AllocatedWhereTouched(limits, event, x);
    k :| 0 <= k < |limits| && x == AllocationFor(limits[k], event);
  }

  lemma OwnedKept(db: Db, w: Write, x: Allocation)
    requires DbValid(db) && Allowed(db, w) && LedgerOwned(db)
    requires x in Perform(db, w).env.ledger.allocations && x !in db.env.ledger.allocations
    ensures OwnedBy(Perform(db, w), x)
  {
    hide DbValid, DbEvolves, Perform, Allowed, LedgerSound, Count, RetryAt, SendLimits, CommonLimits, ChooseTarget, Commits, Admit;
    WriteKeeps(db, w);
    WriteRecords(db, w);
    var b := Perform(db, w);
    if Commits(db, w) {
      CommitOwned(db, w, x);
    } else if w.Admitting? {
      AdmitOwned(db, w, x);
    } else if w.Sending? {
      SendOwned(db, w, x);
    } else if w.Cleaning? {
      CleaningKept(db, w);
    } else if w.Guessing? {
      GuessingKept(db, w);
      var k := CountedAllocation(db.env.ledger, GuessLimits(db.env.settings, w.recipient), GuessEvent(w.guess), w.time, x);
    }
  }

  lemma CommitOwned(db: Db, w: Write, x: Allocation)
    requires DbValid(db) && Allowed(db, w) && LedgerOwned(db) && Commits(db, w)
    requires x in Perform(db, w).env.ledger.allocations && x !in db.env.ledger.allocations
    ensures OwnedBy(Perform(db, w), x)
  {
    hide DbValid, DbEvolves, Perform, Allowed, LedgerSound, Count, RetryAt, SendLimits, CommonLimits, Commits;
    WriteKeeps(db, w);
    CommitCharges(db, w);
    ScopesAreKeyed(db);
    var saved := db.deliveries[w.attempt.operation].saved;
    var limits := SendLimits(db.env, saved, StepAt(db, w.attempt).instance);
    SendLimitsNamed(db, saved, StepAt(db, w.attempt).instance);
    if x in Count(db.env.ledger, limits, EventOf(w.attempt), w.time).allocations {
      var k := CountedAllocation(db.env.ledger, limits, EventOf(w.attempt), w.time, x);
    } else {
      OwnedLater(db, Perform(db, w), x);
    }
  }

  lemma AdmitOwned(db: Db, w: Write, x: Allocation)
    requires Allowed(db, w) && w.Admitting?
    requires x in Perform(db, w).env.ledger.allocations && x !in db.env.ledger.allocations
    ensures OwnedBy(Perform(db, w), x)
  {
    hide Count, RetryAt, Admit;
    AdmissionCharges(db, w.operation, w.input, w.time);
    var k := CountedAllocation(db.env.ledger, AdmissionLimits(db.env, w.input.saved.recipient), OperationEvent(w.operation), w.time, x);
  }

  lemma SendOwned(db: Db, w: Write, x: Allocation)
    requires DbValid(db) && Allowed(db, w) && w.Sending?
    requires x in Perform(db, w).env.ledger.allocations && x !in db.env.ledger.allocations
    ensures OwnedBy(Perform(db, w), x)
  {
    hide DbValid, DbEvolves, Perform, Count, RetryAt, ChooseTarget;
    WriteKeeps(db, w);
    SendCharges(db, w);
    var d := db.deliveries[w.operation];
    var k := CountedAllocation(db.env.ledger, [AdmissionLimit(d.saved.recipient)], AttemptEvent(w.operation, |d.attempts|), w.time, x);
    OwnedLater(db, Perform(db, w), x);
  }

  lemma OwnedInductive()
    ensures Inductive(LedgerOwned)
  {
    hide DbValid, DbEvolves, Allowed, Perform, LedgerSound, OwnedBy;
    forall db: Db, w: Write | Allowed(db, w) && DbValid(db) && LedgerOwned(db)
      ensures LedgerOwned(Perform(db, w))
    {
      LedgerKept(db, w);
      WriteKeeps(db, w);
      forall a | a in Perform(db, w).env.ledger.allocations ensures OwnedBy(Perform(db, w), a) {
        if a in db.env.ledger.allocations {
          OwnedLater(db, Perform(db, w), a);
        } else {
          OwnedKept(db, w, a);
        }
      }
    }
  }

  // ------------------------------------------------------------- the same run, pruned

  /** `p` is `f` after some cleanup: it may have read the clock later, and its ledger has forgotten what no window can
      still see; everything else is the same. */
  ghost predicate Pruned(f: Db, p: Db) {
    && f.clock <= p.clock
    && p == f.(clock := p.clock, env := f.env.(ledger := p.env.ledger))
    && LedgerValid(f.env.ledger) && LedgerValid(p.env.ledger)
    && Agrees(f.env.ledger, p.env.ledger, p.clock)
  }

  lemma AgreesLater(l: Ledger, m: Ledger, since: Time, time: Time)
    requires Agrees(l, m, since) && since <= time
    ensures Agrees(l, m, time)
  {
    forall a | Recent(l, a, time) ensures a in m.allocations {
      assert Recent(l, a, since);
    }
  }

  ghost predicate EnvPruned(e: Environment, m: Environment, since: Time) {
    m == e.(ledger := m.ledger) && Agrees(e.ledger, m.ledger, since)
  }

  lemma {:induction false} SharedAreShort(scopes: seq<SharedLimit>)
    ensures forall k | 0 <= k < |SharedSendLimits(scopes)| :: SharedSendLimits(scopes)[k].window <= DAY
  {
    if scopes != [] {
      SharedAreShort(scopes[..|scopes|-1]);
    }
  }

  lemma SameBudgets(e: Environment, m: Environment, since: Time, saved: Saved, instance: Id, time: Time)
    requires EnvPruned(e, m, since) && since <= time
    ensures CommonLimits(e, saved) == CommonLimits(m, saved) && SendLimits(e, saved, instance) == SendLimits(m, saved, instance)
    ensures RetryAt(e.ledger, CommonLimits(e, saved), time) == RetryAt(m.ledger, CommonLimits(e, saved), time)
    ensures RetryAt(e.ledger, SendLimits(e, saved, instance), time) == RetryAt(m.ledger, SendLimits(e, saved, instance), time)
  {
    SharedAreShort(SharedOf(e, instance));
    hide SharedSendLimits, SharedScopes, RetryAt;
    AgreeingChecks(e.ledger, m.ledger, since, CommonLimits(e, saved), time);
    AgreeingChecks(e.ledger, m.ledger, since, SendLimits(e, saved, instance), time);
  }

  lemma {:induction false} SameCandidates(e: Environment, m: Environment, since: Time, saved: Saved, time: Time,
                                          intent: Option<Intent>, count: nat)
    requires EnvPruned(e, m, since) && since <= time && count <= |saved.steps|
    ensures Candidates(e, saved, time, intent, count) == Candidates(m, saved, time, intent, count)
  {
    hide RetryAt, SendLimits, StepAuthorized;
    if count > 0 {
      SameCandidates(e, m, since, saved, time, intent, count - 1);
      SameBudgets(e, m, since, saved, saved.steps[count - 1].instance, time);
    }
  }

  lemma SameOptions(e: Environment, m: Environment, since: Time, saved: Saved, time: Time, intent: Option<Intent>)
    requires EnvPruned(e, m, since) && since <= time
    ensures AvailableProviders(e, saved, time, intent) == AvailableProviders(m, saved, time, intent)
  {
    hide Candidates, PolicyOpen;
    SameCandidates(e, m, since, saved, time, intent, |saved.steps|);
  }

  // --------------------------------------------------------------------- statements

  lemma TickPruned(f: Db, p: Db, time: Time)
    requires Pruned(f, p)
    ensures Pruned(Tick(f, time), Tick(p, time))
  {
    hide Agrees, LedgerValid;
    AgreesLater(f.env.ledger, p.env.ledger, p.clock, Max(p.clock, time));
  }

  /** The same rows written back. */
  lemma StorePruned(f: Db, p: Db, operation: Id, e: Delivery)
    requires Pruned(f, p) && operation in f.deliveries
    ensures Pruned(Store(f, operation, e), Store(p, operation, e))
  {
    hide Agrees, LedgerValid, RegisterScheduled;
  }

  lemma ExpirePruned(f: Db, p: Db, operation: Id, time: Time)
    requires Pruned(f, p)
    ensures Pruned(ExpireOperation(f, operation, time), ExpireOperation(p, operation, time))
    ensures ExpireOperation(f, operation, time).clock == Max(f.clock, time)
    ensures ExpireOperation(p, operation, time).clock == Max(p.clock, time)
  {
    hide Agrees, LedgerValid, RegisterScheduled, Expire, Pruned;
    TickPruned(f, p, time);
    PrunedRows(f, p);
    if operation in f.deliveries {
      StorePruned(Tick(f, time), Tick(p, time), operation, Expire(f.deliveries[operation], time));
    }
  }

  lemma PrunedRows(f: Db, p: Db)
    requires Pruned(f, p)
    ensures p.deliveries == f.deliveries && p.trail == f.trail && p.env.world == f.env.world && p.env.settings == f.env.settings
    ensures p.blocks == f.blocks && p.inbox == f.inbox && p.correlations == f.correlations
    ensures p.observations == f.observations && p.reserved == f.reserved && f.clock <= p.clock
    ensures forall id: AttemptId :: Addressable(f, id) <==> Addressable(p, id)
    ensures EnvPruned(f.env, p.env, p.clock)
  {
  }

  lemma PrunedClocks(f: Db, p: Db, time: Time)
    requires Pruned(f, p) && p.clock <= time
    ensures Max(f.clock, time) == time == Max(p.clock, time)
  {
  }

  lemma RestrictPruned(f: Db, p: Db, instance: Id, retryAt: Option<Time>)
    requires Pruned(f, p)
    ensures Pruned(f.(env := Restrict(f.env, instance, retryAt)), p.(env := Restrict(p.env, instance, retryAt)))
  {
    hide Agrees, LedgerValid;
  }

  lemma MergePruned(f: Db, p: Db, id: AttemptId, outcome: Outcome, source: Source, time: Time)
    requires Pruned(f, p) && p.clock <= time
    ensures Pruned(Merge(f, id, outcome, source, time), Merge(p, id, outcome, source, time))
  {
    hide Agrees, LedgerValid, RegisterScheduled, MergeOutcome, IntentEligible, AvailableProviders, NextProvider, Restrict;
    if Addressable(f, id) {
      var d := f.deliveries[id.operation];
      var instance := StepAt(f, id).instance;
      var a := f.(env := Restrict(f.env, instance, outcome.retryAt));
      var b := p.(env := Restrict(p.env, instance, outcome.retryAt));
      RestrictPruned(f, p, instance, outcome.retryAt);
      SameOptions(a.env, b.env, p.clock, d.saved, time, Some(IntentAt(f, id)));
      TickPruned(f, p, time);
      TickPruned(a, b, time);
    }
  }

  // --------------------------------------------------------------------- charges

  lemma CountValid(l: Ledger, limits: seq<Limit>, event: EventId, time: Time)
    requires LedgerValid(l)
    ensures LedgerValid(Count(l, limits, event, time))
  {
    CountShape(l, limits, event, time);
  }

  /** The same new event charged to the same limits. */
  lemma ChargePruned(f: Db, p: Db, limits: seq<Limit>, event: EventId)
    requires Pruned(f, p) && f.clock == p.clock && Fresh(f.env.ledger, limits, event)
    ensures Pruned(f.(env := f.env.(ledger := Count(f.env.ledger, limits, event, f.clock))),
                   p.(env := p.env.(ledger := Count(p.env.ledger, limits, event, f.clock))))
  {
    hide Agrees, LedgerValid, Count, Fresh;
    ChargeAgrees(f.env.ledger, p.env.ledger, p.clock, limits, event, f.clock);
    CountValid(f.env.ledger, limits, event, f.clock);
    CountValid(p.env.ledger, limits, event, f.clock);
  }

  lemma ExtendValid(l: Ledger, recipient: Id, event: EventId, time: Time)
    requires LedgerValid(l)
    ensures LedgerValid(ExtendAdmission(l, recipient, event, time))
  {
  }

  lemma ExtendPruned(f: Db, p: Db, recipient: Id, event: EventId)
    requires Pruned(f, p) && f.clock == p.clock
    requires Permitted(f.env.ledger, Extend(recipient, event, f.clock))
    ensures Pruned(f.(env := f.env.(ledger := ExtendAdmission(f.env.ledger, recipient, event, f.clock))),
                   p.(env := p.env.(ledger := ExtendAdmission(p.env.ledger, recipient, event, f.clock))))
  {
    hide Agrees, LedgerValid, ExtendAdmission, Permitted;
    ExtendAgrees(f.env.ledger, p.env.ledger, p.clock, recipient, event, f.clock);
    ExtendValid(f.env.ledger, recipient, event, f.clock);
    ExtendValid(p.env.ledger, recipient, event, f.clock);
  }

  /** After a commitment was charged, its admission event may be extended: nobody else holds it. */
  lemma MayExtend(db: Db, id: AttemptId, limits: seq<Limit>, time: Time)
    requires LedgerOwned(db) && Addressable(db, id)
    requires forall k | 0 <= k < |limits| :: limits[k].kind.Send?
    ensures Permitted(Count(db.env.ledger, limits, EventOf(id), time),
                      Extend(db.deliveries[id.operation].saved.recipient, EventOf(id), time))
  {
    hide LedgerSound, Count;
    var l := db.env.ledger;
    var recipient := db.deliveries[id.operation].saved.recipient;
    forall a | a in Count(l, limits, EventOf(id), time).allocations && KeyOf(a) == EventKey(EventOf(id), Kind.Admission)
      ensures a == Allocation(RecipientScope, recipient, Kind.Admission, EventOf(id))
    {
      if a !in l.allocations {
        var k := CountedAllocation(l, limits, EventOf(id), time, a);
      } else {
        assert OwnedBy(db, a);
      }
    }
  }

  // ------------------------------------------------------------------------ the gate

  lemma ViewPruned(f: Db, p: Db, id: AttemptId, time: Time, mergeTime: Time)
    requires Pruned(f, p) && Addressable(f, id) && p.clock <= time <= mergeTime
    ensures Addressable(p, id) && ViewGate(f, id, time, mergeTime) == ViewGate(p, id, time, mergeTime)
    ensures SendLimits(f.env, f.deliveries[id.operation].saved, StepAt(f, id).instance) ==
              SendLimits(p.env, f.deliveries[id.operation].saved, StepAt(f, id).instance)
  {
    hide Agrees, LedgerValid, AvailableProviders, NextProvider, FindInstance, IntentEligible, RetryAt, CommonLimits, SendLimits, Pruned;
    PrunedRows(f, p);
    var d := f.deliveries[id.operation];
    SameBudgets(f.env, p.env, p.clock, d.saved, StepAt(f, id).instance, time);
    SameOptions(f.env, p.env, p.clock, d.saved, time, Some(IntentAt(f, id)));
    SameOptions(f.env, p.env, p.clock, d.saved, mergeTime, Some(IntentAt(f, id)));
  }

  lemma GatePruned(f: Db, p: Db, id: AttemptId, jobRevision: nat, time: Time, mergeTime: Time)
    requires DbValid(f) && LedgerOwned(f) && Pruned(f, p) && Addressable(f, id)
    requires f.clock == time == p.clock <= mergeTime
    ensures Addressable(p, id)
    ensures Pruned(GateLocked(f, id, jobRevision, time, mergeTime), GateLocked(p, id, jobRevision, time, mergeTime))
  {
    hide DbValid, LedgerOwned, Agrees, LedgerValid, Pruned, Gate, GateVerdictOf, ViewGate, SendLimits, Count, ExtendAdmission, RegisterScheduled;
    ViewPruned(f, p, id, time, mergeTime);
    PrunedRows(f, p);
    var rows := Gate(f.deliveries[id.operation], id.index, jobRevision, time, mergeTime, ViewGate(f, id, time, mergeTime));
    StorePruned(f, p, id.operation, rows);
    var a, b := Store(f, id.operation, rows), Store(p, id.operation, rows);
    match GateVerdictAt(f, id, jobRevision, time, mergeTime) {
      case Commit => CommitPruned(f, p, a, b, id, jobRevision, mergeTime);
      case FailLocally =>
        TickPruned(a, b, mergeTime);
        ObservedPruned(Tick(a, mergeTime), Tick(b, mergeTime), f.observations + [Observation(id, Failed, LocalCheck)]);
      case Recover => ObservedPruned(a, b, f.observations + [Observation(id, Uncertain, RecoveryCheck)]);
      case _ =>
    }
  }

  lemma ObservedPruned(f: Db, p: Db, observations: seq<Observation>)
    requires Pruned(f, p)
    ensures Pruned(f.(observations := observations), p.(observations := observations))
  {
    hide Agrees, LedgerValid;
  }

  lemma TracedPruned(f: Db, p: Db, reserved: set<AttemptId>, trail: seq<Fact>)
    requires Pruned(f, p)
    ensures Pruned(f.(reserved := reserved, trail := trail), p.(reserved := reserved, trail := trail))
  {
    hide Agrees, LedgerValid;
  }

  lemma CommitPruned(f: Db, p: Db, a: Db, b: Db, id: AttemptId, jobRevision: nat, mergeTime: Time)
    requires DbValid(f) && LedgerOwned(f) && Pruned(f, p) && Addressable(f, id)
    requires f.clock == p.clock <= mergeTime && Addressable(p, id)
    requires GateVerdictAt(f, id, jobRevision, f.clock, mergeTime).Commit?
    requires GateVerdictAt(p, id, jobRevision, f.clock, mergeTime).Commit?
    requires a == GatedRows(f, id, jobRevision, f.clock, mergeTime) && b == GatedRows(p, id, jobRevision, f.clock, mergeTime)
    requires Pruned(a, b)
    ensures Pruned(GateLocked(f, id, jobRevision, f.clock, mergeTime), GateLocked(p, id, jobRevision, f.clock, mergeTime))
  {
    hide DbValid, Agrees, LedgerValid, Pruned, Gate, GateVerdictOf, ViewGate, SendLimits, Count, ExtendAdmission, RegisterScheduled, LedgerSound;
    ViewPruned(f, p, id, f.clock, mergeTime);
    PrunedRows(f, p);
    var saved := f.deliveries[id.operation].saved;
    var limits := SendLimits(f.env, saved, StepAt(f, id).instance);
    var w := Gating(id, jobRevision, f.clock, mergeTime);
    CommitWrites(f, w);
    ScopesAreKeyed(f);
    SendLimitsNamed(f, saved, StepAt(f, id).instance);
    FreshCommit(f, id, limits);
    ChargePruned(a, b, limits, EventOf(id));
    var c := a.(env := a.env.(ledger := Count(a.env.ledger, limits, EventOf(id), f.clock)));
    var d := b.(env := b.env.(ledger := Count(b.env.ledger, limits, EventOf(id), f.clock)));
    MayExtend(f, id, limits, f.clock);
    ExtendPruned(c, d, saved.recipient, EventOf(id));
    TracedPruned(c.(env := c.env.(ledger := ExtendAdmission(c.env.ledger, saved.recipient, EventOf(id), f.clock))),
                 d.(env := d.env.(ledger := ExtendAdmission(d.env.ledger, saved.recipient, EventOf(id), f.clock))),
                 f.reserved + {id}, f.trail + [Dispatched(id, saved.recipient, f.clock)]);
  }

  lemma FreshCommit(db: Db, id: AttemptId, limits: seq<Limit>)
    requires LedgerSound(db) && CommittedOf(db, id).None?
    requires forall k | 0 <= k < |limits| :: limits[k].kind.Send?
    ensures Fresh(db.env.ledger, limits, EventOf(id))
  {
    UncommittedUncounted(db, id);
  }

  // --------------------------------------------------------------- clients' requests

  lemma SameTarget(f: Db, p: Db, d: Delivery, action: Action, time: Time)
    requires Pruned(f, p) && p.clock <= time
    ensures ChooseTarget(f, d, action, time) == ChooseTarget(p, d, action, time)
  {
    hide Agrees, LedgerValid, AvailableProviders, RetryAt, UserSendBlock, SelectTarget;
    SameOptions(f.env, p.env, p.clock, d.saved, time, None);
    AgreeingChecks(f.env.ledger, p.env.ledger, p.clock, [AdmissionLimit(d.saved.recipient)], time);
  }

  lemma RequestPruned(f: Db, p: Db, operation: Id, principal: Id, action: Action)
    requires LedgerOwned(f) && Pruned(f, p) && f.clock == p.clock && operation in f.deliveries
    requires RequireAccess(f.env.world, f.deliveries[operation].saved.project, principal, true).Success?
    ensures operation in p.deliveries
    ensures var a := RequestSendLocked(f, operation, principal, action, f.clock);
            var b := RequestSendLocked(p, operation, principal, action, f.clock);
            Pruned(a.db, b.db) && a.result == b.result
  {
    hide Agrees, LedgerValid, Pruned, LedgerOwned, ChooseTarget, RequestSendLocked, SendExplicit, Count, RegisterScheduled, RequireAccess, CaptureAuthority;
    PrunedRows(f, p);
    var d := f.deliveries[operation];
    SameTarget(f, p, d, action, f.clock);
    RequestDecidedFirst(f, operation, principal, action, f.clock);
    RequestDecidedFirst(p, operation, principal, action, f.clock);
    var target := ChooseTarget(f, d, action, f.clock);
    if target.Success? {
      var id := AttemptId(operation, |d.attempts|);
      var rows := SendExplicit(d, target.value.position, ReasonOf(action), CapturedIntent(f.env.world, d.saved, ReasonOf(action), principal, f.clock), f.clock);
      var limits := [AdmissionLimit(d.saved.recipient)];
      StorePruned(f, p, operation, rows);
      var a, b := Store(f, operation, rows), Store(p, operation, rows);
      FreshRequest(f, operation, limits);
      ChargePruned(a, b, limits, EventOf(id));
      TracedPruned(a.(env := a.env.(ledger := Count(a.env.ledger, limits, EventOf(id), f.clock))),
                   b.(env := b.env.(ledger := Count(b.env.ledger, limits, EventOf(id), f.clock))),
                   f.reserved, f.trail + [Explicit(id, d.saved.recipient, f.clock)]);
    }
  }

  lemma FreshRequest(db: Db, operation: Id, limits: seq<Limit>)
    requires LedgerOwned(db) && operation in db.deliveries
    ensures Fresh(db.env.ledger, limits, AttemptEvent(operation, |db.deliveries[operation].attempts|))
  {
    assert !Present(db, AttemptId(operation, |db.deliveries[operation].attempts|));
  }

  lemma AdmitPruned(f: Db, p: Db, operation: Id, input: Admission, time: Time)
    requires LedgerOwned(f) && Pruned(f, p) && p.clock <= time
    ensures var a, b := Admit(f, operation, input, time), Admit(p, operation, input, time);
            && Pruned(a.db, b.db) && a.result == b.result
            && (a.result.Success? ==> a.db.clock == time == b.db.clock && operation in a.db.deliveries)
  {
    hide Agrees, LedgerValid, Pruned, LedgerOwned, AvailableProviders, RetryAt, Count, PolicyUnchanged, StepsUnchanged, ResolveChoice;
    PrunedRows(f, p);
    PrunedClocks(f, p, time);
    SameOptions(f.env, p.env, p.clock, input.saved, time, None);
    var limits := AdmissionLimits(f.env, input.saved.recipient);
    AgreeingChecks(f.env.ledger, p.env.ledger, p.clock, limits, time);
    var r := Admit(f, operation, input, time);
    if r.result.Success? {
      TickPruned(f, p, time);
      var a, b := Tick(f, time), Tick(p, time);
      FreshOperation(f, operation, limits);
      ChargePruned(a, b, limits, OperationEvent(operation));
      AddedPruned(a.(env := a.env.(ledger := Count(a.env.ledger, limits, OperationEvent(operation), time))),
                  b.(env := b.env.(ledger := Count(b.env.ledger, limits, OperationEvent(operation), time))),
                  r.db.deliveries, r.db.trail);
    }
  }

  lemma FreshOperation(db: Db, operation: Id, limits: seq<Limit>)
    requires LedgerOwned(db) && operation !in db.deliveries
    ensures Fresh(db.env.ledger, limits, OperationEvent(operation))
  {
  }

  lemma AddedPruned(f: Db, p: Db, deliveries: map<Id, Delivery>, trail: seq<Fact>)
    requires Pruned(f, p)
    ensures Pruned(f.(deliveries := deliveries, trail := trail), p.(deliveries := deliveries, trail := trail))
  {
    hide Agrees, LedgerValid;
  }

  lemma AttachPruned(f: Db, p: Db, operation: Id, principal: Id, code: Code, time: Time)
    requires Pruned(f, p) && p.clock <= time && operation in f.deliveries
    ensures operation in p.deliveries
    ensures var a, b := AttachCode(f, operation, principal, code, time), AttachCode(p, operation, principal, code, time);
            Pruned(a.db, b.db) && a.result == b.result
  {
    hide Agrees, LedgerValid, Pruned, RegisterScheduled, RequireAccess, CaptureAuthority, Expire, Activate, ScheduleExplicit;
    PrunedRows(f, p);
    ExpirePruned(f, p, operation, time);
    var e, q := ExpireOperation(f, operation, time), ExpireOperation(p, operation, time);
    PrunedRows(e, q);
    var d := e.deliveries[operation];
    if Live(d.op) && d.secrets.Some? && d.secrets.value.code.None? && CodeFits(d.saved, code) {
      var rows := Activate(d, code.fingerprint, time);
      StorePruned(e, q, operation, rows);
      var a, b := Store(e, operation, rows), Store(q, operation, rows);
      TracedPruned(a, b, e.reserved, e.trail + [Activated(operation, time)]);
      InitialPruned(ActivateLocked(e, operation, code.fingerprint, time), ActivateLocked(q, operation, code.fingerprint, time), operation, principal, time);
    }
  }

  lemma InitialPruned(f: Db, p: Db, operation: Id, principal: Id, time: Time)
    requires Pruned(f, p) && operation in f.deliveries
    ensures operation in p.deliveries
    ensures var a, b := InitialSend(f, operation, principal, time), InitialSend(p, operation, principal, time);
            Pruned(a.db, b.db) && a.result == b.result
  {
    hide Agrees, LedgerValid, Pruned, RegisterScheduled, RequireAccess, CaptureAuthority, ScheduleExplicit;
    PrunedRows(f, p);
    var d := f.deliveries[operation];
    var access := RequireAccess(f.env.world, d.saved.project, principal, true);
    var authority := CaptureAuthority(f.env.world, d.saved.project, d.saved.policy, Instances(d.saved));
    if access.Success? && authority.Success? {
      AccessedProject(f.env.world, d.saved.project, principal);
      var intent := Intent(d.saved.project, access.value, f.env.world.projects[d.saved.project].sendEpoch, Initial, time, authority.value);
      StorePruned(f, p, operation, ScheduleExplicit(d, d.saved.initialPosition, Initial, intent, time));
    }
  }

  lemma AccessedProject(w: World, project: Id, principal: Id)
    requires RequireAccess(w, project, principal, true).Success?
    ensures project in w.projects
  {
  }

  // ------------------------------------------------------------ workers and callbacks

  lemma ClaimPruned(f: Db, p: Db, id: AttemptId, jobRevision: nat, time: Time)
    requires Pruned(f, p) && p.clock <= time && Addressable(f, id)
    ensures Addressable(p, id) && Pruned(ClaimLocked(f, id, jobRevision, time), ClaimLocked(p, id, jobRevision, time))
  {
    hide Agrees, LedgerValid, Pruned, RegisterScheduled, ClaimAuthorization, ClaimVerdictOf, IntentEligible;
    PrunedRows(f, p);
    TickPruned(f, p, time);
    var d := f.deliveries[id.operation];
    var eligible := IntentEligible(f.env.world, d.saved, IntentAt(f, id));
    var block := BlockOf(f, d.saved.project);
    var rows := ClaimAuthorization(d, id.index, jobRevision, time, eligible, block);
    StorePruned(Tick(f, time), Tick(p, time), id.operation, rows);
    TracedPruned(Store(Tick(f, time), id.operation, rows), Store(Tick(p, time), id.operation, rows), f.reserved,
      f.trail + [Claimed(Claim(id, d.attempts[id.index].auth.generation + 1, block.generation), time)]);
  }

  lemma FinishPruned(f: Db, p: Db, claim: Claim, decision: AuthorityDecision, time: Time)
    requires Pruned(f, p) && p.clock <= time && Addressable(f, claim.attempt)
    ensures Addressable(p, claim.attempt) && Pruned(FinishLocked(f, claim, decision, time), FinishLocked(p, claim, decision, time))
  {
    hide Agrees, LedgerValid, Pruned, RegisterScheduled, FinishAuthorization, IntentEligible, RecordDenial;
    PrunedRows(f, p);
    TickPruned(f, p, time);
    var id := claim.attempt;
    var d := f.deliveries[id.operation];
    var eligible := IntentEligible(f.env.world, d.saved, IntentAt(f, id));
    var block := BlockOf(f, d.saved.project);
    var rows := FinishAuthorization(d, id.index, claim, decision, time, eligible, block);
    StorePruned(Tick(f, time), Tick(p, time), id.operation, rows);
    if decision.DenyProject? && Decides(d.attempts[id.index], claim.generation) {
      BlockedPruned(Store(Tick(f, time), id.operation, rows), Store(Tick(p, time), id.operation, rows),
        f.blocks[d.saved.project := RecordDenial(block, time, decision.retryAt)],
        f.trail + [ProjectDenied(d.saved.project, Max(time + 1000, decision.retryAt))]);
    }
  }

  lemma BlockedPruned(f: Db, p: Db, blocks: map<Id, Block>, trail: seq<Fact>)
    requires Pruned(f, p)
    ensures Pruned(f.(blocks := blocks, trail := trail), p.(blocks := blocks, trail := trail))
  {
    hide Agrees, LedgerValid;
  }

  lemma InboxPruned(f: Db, p: Db, inbox: seq<InboxRow>)
    requires Pruned(f, p)
    ensures Pruned(f.(inbox := inbox), p.(inbox := inbox))
  {
    hide Agrees, LedgerValid;
  }

  lemma RegisterPruned(f: Db, p: Db, alias: Alias, id: AttemptId)
    requires Pruned(f, p)
    ensures Register(f, alias, id).Some? <==> Register(p, alias, id).Some?
    ensures Register(f, alias, id).Some? ==> Pruned(Register(f, alias, id).value, Register(p, alias, id).value)
  {
    hide Agrees, LedgerValid;
  }

  ghost predicate OptionsPruned(f: Option<Db>, p: Option<Db>) {
    (f.Some? <==> p.Some?) && (f.Some? ==> Pruned(f.value, p.value))
  }

  lemma InsertEventPruned(f: Db, p: Db, instance: Id, event: CallbackEvent)
    requires Pruned(f, p)
    ensures OptionsPruned(InsertEvent(f, instance, event), InsertEvent(p, instance, event))
    ensures EventReferences(f, instance, event) == EventReferences(p, instance, event)
    ensures InsertEvent(p, instance, event).Some? ==> InsertEvent(p, instance, event).value.clock == p.clock
  {
    hide Agrees, LedgerValid;
    PrunedRows(f, p);
    var target := EventTarget(f, instance, event);
    if target.Some? {
      RegisterPruned(f, p, Alias(instance, ProviderReference(event.request.value)), target.value);
    }
  }

  lemma {:induction false} InsertEventsPruned(f: Db, p: Db, instance: Id, events: seq<CallbackEvent>)
    requires Pruned(f, p)
    ensures OptionsPruned(InsertEvents(f, instance, events), InsertEvents(p, instance, events))
    ensures BatchReferences(f, instance, events) == BatchReferences(p, instance, events)
    ensures InsertEvents(p, instance, events).Some? ==> InsertEvents(p, instance, events).value.clock == p.clock
  {
    hide Pruned, InsertEvent, EventReferences;
    if events != [] {
      InsertEventsPruned(f, p, instance, events[..|events|-1]);
      InsertEventPruned(f, p, instance, events[|events|-1]);
      var a, b := InsertEvents(f, instance, events[..|events|-1]), InsertEvents(p, instance, events[..|events|-1]);
      if a.Some? {
        InsertEventPruned(a.value, b.value, instance, events[|events|-1]);
      }
    }
  }

  lemma {:induction false} ApplyPruned(f: Db, p: Db, alias: Alias, id: AttemptId, revision: nat, time: Time, count: nat)
    requires Pruned(f, p) && p.clock <= time && count <= |f.inbox|
    ensures count <= |p.inbox|
    ensures var b := ApplyRows(p, alias, id, revision, time, count);
            Pruned(ApplyRows(f, alias, id, revision, time, count), b) && b.clock <= time
  {
    hide Pruned, Merge, Applicable;
    PrunedRows(f, p);
    if count > 0 {
      ApplyPruned(f, p, alias, id, revision, time, count - 1);
      var a, b := ApplyRows(f, alias, id, revision, time, count - 1), ApplyRows(p, alias, id, revision, time, count - 1);
      PrunedRows(a, b);
      var row := a.inbox[count - 1];
      if Applicable(row, alias.instance, alias.reference, revision) && !row.processed {
        MergePruned(a, b, id, CallbackOutcome(row), Callback(count - 1), time);
        MergeClock(b, id, CallbackOutcome(row), Callback(count - 1), time);
        InboxPruned(Merge(a, id, CallbackOutcome(row), Callback(count - 1), time), Merge(b, id, CallbackOutcome(row), Callback(count - 1), time),
          a.inbox[count - 1 := row.(processed := true)]);
      }
    }
  }

  lemma MergeClock(db: Db, id: AttemptId, outcome: Outcome, source: Source, time: Time)
    requires db.clock <= time
    ensures Merge(db, id, outcome, source, time).clock <= time
  {
    hide MergeOutcome, AvailableProviders, NextProvider, IntentEligible;
  }

  lemma ReconcilePruned(f: Db, p: Db, alias: Alias, time: Time, mergeTime: Time)
    requires Pruned(f, p) && time <= mergeTime && p.clock <= mergeTime
    ensures Pruned(Reconcile(f, alias, time, mergeTime), Reconcile(p, alias, time, mergeTime))
    ensures Reconcile(p, alias, time, mergeTime).clock <= mergeTime
  {
    hide Pruned, ApplyRows, ExpireOperation;
    PrunedRows(f, p);
    if alias in f.correlations {
      var id := f.correlations[alias];
      ExpirePruned(f, p, id.operation, time);
      var a, b := ExpireOperation(f, id.operation, time), ExpireOperation(p, id.operation, time);
      PrunedRows(a, b);
      if Addressable(a, id) {
        ApplyPruned(a, b, alias, id, StepAt(a, id).instanceRevision, mergeTime, |a.inbox|);
      }
    }
  }

  lemma {:induction false} ReconcileAllPruned(f: Db, p: Db, instance: Id, order: seq<Reference>, time: Time, mergeTime: Time)
    requires Pruned(f, p) && time <= mergeTime && p.clock <= mergeTime
    ensures Pruned(ReconcileAll(f, instance, order, time, mergeTime), ReconcileAll(p, instance, order, time, mergeTime))
    ensures ReconcileAll(p, instance, order, time, mergeTime).clock <= mergeTime
  {
    hide Pruned, Reconcile;
    if order != [] {
      var earlier := order[..|order|-1];
      ReconcileAllPruned(f, p, instance, earlier, time, mergeTime);
      ReconcilePruned(ReconcileAll(f, instance, earlier, time, mergeTime), ReconcileAll(p, instance, earlier, time, mergeTime),
        Alias(instance, order[|order|-1]), time, mergeTime);
    }
  }

  lemma IngestPruned(f: Db, p: Db, instance: Id, events: seq<CallbackEvent>, order: seq<Reference>, time: Time, mergeTime: Time)
    requires Pruned(f, p) && time <= mergeTime && p.clock <= mergeTime
    ensures Pruned(Ingest(f, instance, events, order, time, mergeTime), Ingest(p, instance, events, order, time, mergeTime))
  {
    hide Pruned, InsertEvents, ReconcileAll;
    InsertEventsPruned(f, p, instance, events);
    var a, b := InsertEvents(f, instance, events), InsertEvents(p, instance, events);
    if a.Some? {
      ReconcileAllPruned(a.value, b.value, instance, order, time, mergeTime);
    }
  }

  lemma AcknowledgePruned(f: Db, p: Db, id: AttemptId, request: Option<Id>, time: Time, mergeTime: Time)
    requires Pruned(f, p) && time <= mergeTime && p.clock <= mergeTime && Addressable(f, id)
    ensures Addressable(p, id)
    ensures OptionsPruned(Acknowledge(f, id, request, time, mergeTime), Acknowledge(p, id, request, time, mergeTime))
    ensures var b := Acknowledge(p, id, request, time, mergeTime); b.Some? ==> b.value.clock <= mergeTime
  {
    hide Pruned, Merge, Reconcile, Register;
    PrunedRows(f, p);
    MergePruned(f, p, id, AcceptedOutcome, Response, mergeTime);
    MergeClock(p, id, AcceptedOutcome, Response, mergeTime);
    var a, b := Merge(f, id, AcceptedOutcome, Response, mergeTime), Merge(p, id, AcceptedOutcome, Response, mergeTime);
    if request.Some? {
      var alias := Alias(StepAt(f, id).instance, ProviderReference(request.value));
      RegisterPruned(a, b, alias, id);
      RegisterClock(b, alias, id);
      if Register(a, alias, id).Some? {
        ReconcilePruned(Register(a, alias, id).value, Register(b, alias, id).value, alias, time, mergeTime);
      }
    }
  }

  lemma RegisterClock(db: Db, alias: Alias, id: AttemptId)
    ensures Register(db, alias, id).Some? ==> Register(db, alias, id).value.clock == db.clock
  {
  }

  lemma AcceptedPruned(f: Db, p: Db, id: AttemptId, request: Option<Id>, events: seq<CallbackEvent>, order: seq<Reference>,
                       time: Time, mergeTime: Time)
    requires Pruned(f, p) && p.clock <= time <= mergeTime
    ensures Pruned(RecordAccepted(f, id, request, events, order, time, mergeTime),
                   RecordAccepted(p, id, request, events, order, time, mergeTime))
  {
    hide Pruned, Acknowledge, Ingest, InsertEvents, ExpireOperation;
    ExpirePruned(f, p, id.operation, time);
    var e, q := ExpireOperation(f, id.operation, time), ExpireOperation(p, id.operation, time);
    PrunedRows(e, q);
    if Addressable(e, id) {
      AcknowledgePruned(e, q, id, request, time, mergeTime);
      var a, b := Acknowledge(e, id, request, time, mergeTime), Acknowledge(q, id, request, time, mergeTime);
      if a.Some? {
        InsertEventsPruned(a.value, b.value, StepAt(e, id).instance, events);
        IngestPruned(a.value, b.value, StepAt(e, id).instance, events, order, time, mergeTime);
      }
    }
  }

  // ------------------------------------------------------------------------- steps

  /** What a client is told. */
  datatype Told = Silent | Sent(attempt: Result<AttemptId>) | Opened(operation: Result<Id>) | Looked(open: bool)

  function Tells(db: Db, step: Step): Told {
    match step
    case RequestStep(operation, principal, action, time) => Sent(RequestSend(db, operation, principal, action, time).result)
    case SubmitStep(operation, principal, code, time) => Sent(Submit(db, operation, principal, code, time).result)
    case PrepareStep(operation, principal, input, time) =>
      var access := RequireAccess(db.env.world, input.saved.project, principal, true);
      Opened(if access.Failure? then Failure(access.error) else Admit(db, operation, input, time).result)
    case CreateStep(operation, principal, input, code, time, later) =>
      var access := RequireAccess(db.env.world, input.saved.project, principal, true);
      var admitted := Admit(db, operation, input, time);
      if access.Failure? then Opened(Failure(access.error))
      else if admitted.result.Failure? || operation !in admitted.db.deliveries then Opened(admitted.result)
      else
        var attached := AttachCode(admitted.db, operation, principal, code, later).result;
        Opened(if attached.Failure? then Failure(attached.error) else admitted.result)
    case GuessStep(recipient, _, time) => Looked(RetryAt(db.env.ledger, GuessLimits(db.env.settings, recipient), time).None?)
    case _ => Silent
  }

  lemma ClientPruned(f: Db, p: Db, step: Step)
    requires DbValid(f) && LedgerOwned(f) && Pruned(f, p) && Honest(p, step)
    requires step.PrepareStep? || step.CreateStep? || step.SubmitStep? || step.RequestStep?
    ensures Pruned(Transact(f, step), Transact(p, step)) && Tells(f, step) == Tells(p, step)
  {
    hide DbValid, Pruned, LedgerOwned, Admit, AttachCode, RequestSendLocked, RequireAccess, ExpireOperation;
    PrunedRows(f, p);
    match step
    case PrepareStep(operation, principal, input, time) => AdmitPruned(f, p, operation, input, time);
    case CreateStep(operation, principal, input, code, time, later) =>
      AdmitPruned(f, p, operation, input, time);
      var a, b := Admit(f, operation, input, time), Admit(p, operation, input, time);
      if a.result.Success? {
        AttachPruned(a.db, b.db, operation, principal, code, later);
      }
    case SubmitStep(operation, principal, code, time) =>
      if operation in f.deliveries {
        AttachPruned(f, p, operation, principal, code, time);
      }
    case RequestStep(operation, principal, action, time) =>
      if CheckAccess(f, operation, principal).None? {
        ExpirePruned(f, p, operation, time);
        ExpiredOwned(f, operation, time);
        PrunedClocks(f, p, time);
        RequestPruned(ExpireOperation(f, operation, time), ExpireOperation(p, operation, time), operation, principal, action);
      }
  }

  lemma ExpiredOwned(db: Db, operation: Id, time: Time)
    requires DbValid(db) && LedgerOwned(db)
    ensures DbValid(ExpireOperation(db, operation, time)) && LedgerOwned(ExpireOperation(db, operation, time))
    ensures var e := ExpireOperation(db, operation, time);
            && e.env == db.env && e.deliveries.Keys == db.deliveries.Keys
            && (operation in db.deliveries ==> e.deliveries[operation].saved == db.deliveries[operation].saved)
  {
    hide DbValid, LedgerOwned, Inductive, Expire, DbEvolves;
    OwnedInductive();
    ExpireValid(db, operation, time);
    OwnedByWrite(db, Expiring(operation, time));
    if operation in db.deliveries {
      Rejection.ExpiredSaved(db, operation, time);
    }
  }

  lemma OwnedByWrite(db: Db, w: Write)
    requires DbValid(db) && LedgerOwned(db) && Allowed(db, w) && Inductive(LedgerOwned)
    ensures LedgerOwned(Perform(db, w))
  {
    hide DbValid, LedgerOwned, Allowed, Perform;
  }

  lemma WorkerPruned(f: Db, p: Db, step: Step)
    requires DbValid(f) && LedgerOwned(f) && Pruned(f, p) && Honest(p, step)
    requires step.ClaimStep? || step.FinishStep? || step.GateStep? || step.OutcomeStep? || step.NotInvokedStep? || step.RecoverStep?
    ensures Pruned(Transact(f, step), Transact(p, step))
  {
    hide DbValid, Pruned, LedgerOwned, ExpireOperation, ClaimLocked, FinishLocked, GateLocked, Merge, RecoverLocked, WasClaimed;
    PrunedRows(f, p);
    match step
    case ClaimStep(id, jobRevision, time, later) =>
      var a, b := ExpiredBoth(f, p, id.operation, time);
      if Addressable(a, id) { ClaimPruned(a, b, id, jobRevision, later); }
    case FinishStep(claim, decision, time, later) =>
      var a, b := ExpiredBoth(f, p, claim.attempt.operation, time);
      if Addressable(a, claim.attempt) { FinishPruned(a, b, claim, decision, later); }
    case GateStep(id, jobRevision, time, later) =>
      var a, b := ExpiredBoth(f, p, id.operation, time);
      if Addressable(a, id) { GatePruned(a, b, id, jobRevision, time, later); }
    case OutcomeStep(id, failure, time, later) =>
      var a, b := ExpiredBoth(f, p, id.operation, time);
      MergePruned(a, b, id, FailureOutcome(failure), Response, later);
    case NotInvokedStep(id, tooLate, time, later) =>
      var a, b := ExpiredBoth(f, p, id.operation, time);
      MergePruned(a, b, id, NotInvokedOutcome(tooLate), Response, later);
    case RecoverStep(operation, time) =>
      var a, b := ExpiredBoth(f, p, operation, time);
      if operation in a.deliveries { RecoverPruned(a, b, operation, time); }
  }

  /** Both databases after expiry, with equal clocks. */
  lemma ExpiredBoth(f: Db, p: Db, operation: Id, time: Time) returns (a: Db, b: Db)
    requires DbValid(f) && LedgerOwned(f) && Pruned(f, p) && p.clock <= time
    ensures a == ExpireOperation(f, operation, time) && b == ExpireOperation(p, operation, time)
    ensures DbValid(a) && LedgerOwned(a) && Pruned(a, b) && a.clock == time == b.clock
    ensures b.deliveries == a.deliveries && forall id: AttemptId :: Addressable(a, id) <==> Addressable(b, id)
  {
    hide DbValid, LedgerOwned, Pruned, ExpireOperation;
    ExpirePruned(f, p, operation, time);
    ExpiredOwned(f, operation, time);
    PrunedRows(f, p);
    a, b := ExpireOperation(f, operation, time), ExpireOperation(p, operation, time);
    PrunedRows(a, b);
  }

  lemma RecoverPruned(f: Db, p: Db, operation: Id, time: Time)
    requires Pruned(f, p) && operation in f.deliveries
    ensures operation in p.deliveries && Pruned(RecoverLocked(f, operation, time), RecoverLocked(p, operation, time))
  {
    hide Pruned, RecoverOverdue, RegisterScheduled;
    PrunedRows(f, p);
    var rows := RecoverOverdue(f.deliveries[operation], time);
    StorePruned(f, p, operation, rows);
    ObservedPruned(Store(f, operation, rows), Store(p, operation, rows),
      f.observations + RecoveryObservations(operation, f.deliveries[operation].attempts, time));
  }

  lemma GuessPruned(f: Db, p: Db, recipient: Id, guess: Id, time: Time)
    requires LedgerSound(f) && Pruned(f, p) && p.clock <= time && !WasGuessed(f, guess)
    ensures Pruned(CountGuess(f, recipient, guess, time), CountGuess(p, recipient, guess, time))
    ensures RetryAt(f.env.ledger, GuessLimits(f.env.settings, recipient), time) == RetryAt(p.env.ledger, GuessLimits(p.env.settings, recipient), time)
  {
    hide Agrees, LedgerValid, Pruned, LedgerSound, RetryAt, Count;
    PrunedRows(f, p);
    PrunedClocks(f, p, time);
    TickPruned(f, p, time);
    var limits := GuessLimits(f.env.settings, recipient);
    AgreeingChecks(f.env.ledger, p.env.ledger, p.clock, limits, time);
    NewGuessUncounted(f, guess);
    ChargePruned(Tick(f, time), Tick(p, time), limits, GuessEvent(guess));
    var a, b := Tick(f, time), Tick(p, time);
    TracedPruned(a.(env := a.env.(ledger := Count(a.env.ledger, limits, GuessEvent(guess), time))),
                 b.(env := b.env.(ledger := Count(b.env.ledger, limits, GuessEvent(guess), time))),
                 f.reserved, f.trail + [Guessed(guess, recipient, time)]);
  }

  lemma ForgetPruned(f: Db, p: Db, places: set<nat>, time: Time)
    requires Pruned(f, p)
    ensures Pruned(ForgetCallbacks(f, places, time), ForgetCallbacks(p, places, time))
  {
    hide Pruned;
    PrunedRows(f, p);
    TickPruned(f, p, time);
    InboxPruned(Tick(f, time), Tick(p, time), ForgetCallbacks(f, places, time).inbox);
    assert ForgetCallbacks(p, places, time).inbox == ForgetCallbacks(f, places, time).inbox;
  }

  lemma AdministerPruned(f: Db, p: Db, command: Command)
    requires Pruned(f, p)
    ensures Pruned(AdministerWorld(f, command), AdministerWorld(p, command))
  {
    hide Agrees, LedgerValid, Administer;
  }

  lemma ClosePruned(f: Db, p: Db, operation: Id, time: Time)
    requires Pruned(f, p)
    ensures Pruned(Close(f, operation, time), Close(p, operation, time))
  {
    hide Pruned, ExpireOperation, Terminate, RegisterScheduled;
    ExpirePruned(f, p, operation, time);
    var a, b := ExpireOperation(f, operation, time), ExpireOperation(p, operation, time);
    PrunedRows(a, b);
    if operation in a.deliveries {
      StorePruned(a, b, operation, Terminate(a.deliveries[operation], Closed, time));
    }
  }

  lemma InvokePruned(f: Db, p: Db, id: AttemptId)
    requires Pruned(f, p)
    ensures Pruned(Invoke(f, id), Invoke(p, id))
  {
    hide Agrees, LedgerValid;
  }

  /** Every transaction but cleanup does the same in both, and tells clients the same. */
  lemma StepPruned(f: Db, p: Db, step: Step)
    requires DbValid(f) && LedgerOwned(f) && Pruned(f, p) && Honest(p, step) && !step.CleanStep?
    ensures Pruned(Transact(f, step), Transact(p, step)) && Tells(f, step) == Tells(p, step)
  {
    hide DbValid, Pruned, LedgerSound, EventsKnown, Known, WasClaimed, WasGuessed;
    PrunedRows(f, p);
    match step
    case PrepareStep(_, _, _, _) => ClientPruned(f, p, step);
    case CreateStep(_, _, _, _, _, _) => ClientPruned(f, p, step);
    case SubmitStep(_, _, _, _) => ClientPruned(f, p, step);
    case RequestStep(_, _, _, _) => ClientPruned(f, p, step);
    case AdministerStep(command) => AdministerPruned(f, p, command);
    case CloseStep(operation, time) => ClosePruned(f, p, operation, time);
    case ExpireStep(operation, time) => ExpirePruned(f, p, operation, time);
    case InvokeStep(id) => InvokePruned(f, p, id);
    case AcceptedStep(id, request, events, order, time, later) => AcceptedPruned(f, p, id, request, events, order, time, later);
    case IngestStep(instance, events, order, time, later) => IngestPruned(f, p, instance, events, order, time, later);
    case ForgetStep(places, time) => ForgetPruned(f, p, places, time);
    case GuessStep(recipient, guess, time) =>
      SameGuesses(f, p, guess);
      GuessPruned(f, p, recipient, guess, time);
    case _ => WorkerPruned(f, p, step);
  }

  lemma SameGuesses(f: Db, p: Db, guess: Id)
    requires p.trail == f.trail
    ensures WasGuessed(f, guess) <==> WasGuessed(p, guess)
  {
  }

  lemma CleanPruned(f: Db, p: Db, doomed: set<EventKey>, time: Time)
    requires Pruned(f, p) && p.clock <= time && Deletable(p.env.ledger, doomed, time)
    ensures Pruned(f, Engine.Clean(p, doomed, time))
  {
    hide Agrees;
    CleanAgrees(f.env.ledger, p.env.ledger, p.clock, doomed, time);
  }

  /** What the environment may do to the pruned database it may do to the full one. */
  lemma HonestPruned(f: Db, p: Db, step: Step)
    requires Pruned(f, p) && Honest(p, step) && !step.CleanStep?
    ensures Honest(f, step)
  {
    hide Pruned, Acknowledge, ExpireOperation, BatchReferences, EventsKnown;
    PrunedRows(f, p);
    assert f.clock <= FirstReading(f, step) <= LastReading(f, step);
    SameKnown(f, p);
    match step
    case AcceptedStep(id, request, events, order, time, later) => SameAcceptedOrder(f, p, step);
    case IngestStep(instance, events, order, time, later) => InsertEventsPruned(f, p, instance, events);
    case GuessStep(_, guess, _) => SameGuesses(f, p, guess);
    case _ =>
  }

  lemma SameKnown(f: Db, p: Db)
    requires p.deliveries == f.deliveries && p.trail == f.trail
    ensures forall id: AttemptId :: Known(f, id) <==> Known(p, id)
    ensures forall events :: EventsKnown(f, events) <==> EventsKnown(p, events)
    ensures forall claim :: WasClaimed(f, claim) <==> WasClaimed(p, claim)
  {
  }

  lemma SameAcceptedOrder(f: Db, p: Db, step: Step)
    requires Pruned(f, p) && step.AcceptedStep? && p.clock <= step.time <= step.later && OrderComplete(p, step)
    ensures OrderComplete(f, step)
  {
    hide Pruned, Acknowledge, ExpireOperation, BatchReferences, Enumerates;
    ExpirePruned(f, p, step.attempt.operation, step.time);
    var a, b := ExpireOperation(f, step.attempt.operation, step.time), ExpireOperation(p, step.attempt.operation, step.time);
    PrunedRows(a, b);
    if Addressable(a, step.attempt) {
      AcknowledgePruned(a, b, step.attempt, step.request, step.time, step.later);
      var x, y := Acknowledge(a, step.attempt, step.request, step.time, step.later), Acknowledge(b, step.attempt, step.request, step.time, step.later);
      if x.Some? {
        InsertEventsPruned(x.value, y.value, StepAt(a, step.attempt).instance, step.events);
      }
    }
  }

  // -------------------------------------------------------------------------- runs

  function WithoutCleaning(steps: seq<Step>): seq<Step> {
    if steps == [] then []
    else
      var rest := WithoutCleaning(steps[..|steps|-1]);
      if steps[|steps|-1].CleanStep? then rest else rest + [steps[|steps|-1]]
  }

  lemma SnocRun(db: Db, steps: seq<Step>, step: Step)
    ensures Run(db, steps + [step]) == Transact(Run(db, steps), step)
    ensures HonestRun(db, steps + [step]) <==> HonestRun(db, steps) && Honest(Run(db, steps), step)
  {
    hide Transact, Honest;
    assert (steps + [step])[..|steps|] == steps;
  }

  lemma {:induction false} RunPruned(start: Db, steps: seq<Step>)
    requires DbValid(start) && LedgerOwned(start) && HonestRun(start, steps)
    ensures HonestRun(start, WithoutCleaning(steps))
    ensures DbValid(Run(start, WithoutCleaning(steps))) && LedgerOwned(Run(start, WithoutCleaning(steps)))
    ensures Pruned(Run(start, WithoutCleaning(steps)), Run(start, steps))
  {
    hide DbValid, LedgerSound, Pruned, Transact, Honest;
    if steps == [] {
      SamePruned(start);
    } else {
      var earlier, last := steps[..|steps|-1], steps[|steps|-1];
      RunPruned(start, earlier);
      var f, p := Run(start, WithoutCleaning(earlier)), Run(start, earlier);
      SnocRun(start, WithoutCleaning(earlier), last);
      if last.CleanStep? {
        CleaningPruned(f, p, last);
      } else {
        StepPruned(f, p, last);
        HonestPruned(f, p, last);
        OwnedNext(start, WithoutCleaning(steps));
      }
    }
  }

  lemma SamePruned(db: Db)
    requires LedgerSound(db)
    ensures Pruned(db, db)
  {
  }

  lemma CleaningPruned(f: Db, p: Db, step: Step)
    requires Pruned(f, p) && step.CleanStep? && Honest(p, step)
    ensures Pruned(f, Transact(p, step))
  {
    hide Pruned;
    CleanPruned(f, p, step.doomed, step.time);
  }

  lemma OwnedNext(start: Db, steps: seq<Step>)
    requires DbValid(start) && LedgerOwned(start) && HonestRun(start, steps)
    ensures DbValid(Run(start, steps)) && LedgerOwned(Run(start, steps))
  {
    hide DbValid, DbEvolves, LedgerOwned, Inductive, HonestRun, Run;
    OwnedInductive();
    RunReached(start, steps, LedgerOwned);
  }

  /** Cleanup changes nothing that matters: from a new deployment, the run without the cleanup steps can happen too, and
      ends with the same operations, attempts, blocks, inbox, aliases, evidence and history, differing only in what the
      ledger remembers and in the clock; and whatever is asked next is answered alike. */
  lemma CleanupIsInvisible(settings: Settings, clock: Time, steps: seq<Step>, next: Step)
    requires HonestRun(EmptyDb(settings, clock), steps)
    ensures var start := EmptyDb(settings, clock);
            var f, p := Run(start, WithoutCleaning(steps)), Run(start, steps);
            && HonestRun(start, WithoutCleaning(steps))
            && p == f.(clock := p.clock, env := f.env.(ledger := p.env.ledger))
            && (Honest(p, next) && !next.CleanStep? ==> Tells(f, next) == Tells(p, next))
  {
    hide DbValid, Transact, Honest, Tells, Agrees, HonestRun;
    var start := EmptyDb(settings, clock);
    EmptyValid(settings, clock);
    EmptyOwned(settings, clock);
    RunPruned(start, steps);
    var f, p := Run(start, WithoutCleaning(steps)), Run(start, steps);
    if Honest(p, next) && !next.CleanStep? {
      StepPruned(f, p, next);
    }
  }

  lemma EmptyOwned(settings: Settings, clock: Time)
    ensures LedgerOwned(EmptyDb(settings, clock))
  {
  }
}
