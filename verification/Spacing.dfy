/** Cooldowns: an accepted explicit send keeps its distance from activation, earlier explicit sends and
    earlier commitments of its operation; admissions and explicit sends keep theirs per recipient. */
module Spacing {
  import opened Prelude
  import opened Records
  import opened Routing
  import opened RoutingInvariant
  import opened Authority
  import opened Quotas
  import opened QuotaProofs
  import opened Eligibility
  import opened Engine
  import opened EngineInvariant
  import opened EngineSteps
  import opened EngineWrites
  import opened EngineFrames
  import opened EngineRuns
  import opened LedgerRecords

  /** Facts that start the operation's cooldown. */
  predicate Cooling(fact: Fact) { fact.Activated? || fact.Explicit? || fact.Dispatched? }

  function OperationOf(fact: Fact): Id
    requires Cooling(fact)
  {
    if fact.Activated? then fact.operation else fact.attempt.operation
  }

  /** Facts that occupy the recipient's admission window. */
  predicate Occupying(fact: Fact) { fact.Admitted? || fact.Explicit? || fact.Dispatched? }

  const ADMISSION_SPACING: Time := 30000

  // ------------------------------------------------------------ within an operation

  ghost predicate CoolingRecorded(db: Db, fact: Fact)
    requires Cooling(fact)
  {
    OperationOf(fact) in db.deliveries &&
    fact.time + db.deliveries[OperationOf(fact)].saved.resendCooldown <= db.deliveries[OperationOf(fact)].op.nextUserSendAt
  }

  ghost predicate SpacedWithin(db: Db, j: nat, k: nat)
    requires j < k < |db.trail|
  {
    Cooling(db.trail[j]) && db.trail[k].Explicit? && OperationOf(db.trail[j]) == db.trail[k].attempt.operation ==>
      OperationOf(db.trail[j]) in db.deliveries &&
      db.trail[j].time + db.deliveries[OperationOf(db.trail[j])].saved.resendCooldown <= db.trail[k].time
  }

  ghost predicate CooldownsKept(db: Db) {
    && (forall k | 0 <= k < |db.trail| && Cooling(db.trail[k]) :: CoolingRecorded(db, db.trail[k]))
    && (forall j: nat, k: nat | j < k < |db.trail| :: SpacedWithin(db, j, k))
  }

  // ------------------------------------------------------------- across operations

  /** An admission event of the recipient that is at least as late as `time`. */
  predicate Held(l: Ledger, recipient: Id, event: EventId, time: Time) {
    && Allocation(RecipientScope, recipient, Kind.Admission, event) in l.allocations
    && EventKey(event, Kind.Admission) in l.events
    && time <= l.events[EventKey(event, Kind.Admission)]
  }

  /** The ledger remembers the fact, or it is at least a day old. */
  ghost predicate Remembered(l: Ledger, clock: Time, fact: Fact)
    requires Occupying(fact)
  {
    fact.time <= clock - DAY || exists event :: Held(l, fact.recipient, event, fact.time)
  }

  ghost predicate SpacedAcross(trail: seq<Fact>, j: nat, k: nat)
    requires j < k < |trail|
  {
    Occupying(trail[j]) && (trail[k].Admitted? || trail[k].Explicit?) && trail[j].recipient == trail[k].recipient ==>
      trail[j].time + ADMISSION_SPACING <= trail[k].time
  }

  ghost predicate AdmissionsSpaced(db: Db) {
    && LedgerSound(db)
    && (forall k | 0 <= k < |db.trail| && Occupying(db.trail[k]) :: Remembered(db.env.ledger, db.clock, db.trail[k]))
    && (forall j: nat, k: nat | j < k < |db.trail| :: SpacedAcross(db.trail, j, k))
  }

  /** A passed admission check leaves no remembered fact of the recipient within the spacing. */
  lemma CheckedSpacing(l: Ledger, clock: Time, fact: Fact, time: Time)
    requires Occupying(fact) && Remembered(l, clock, fact) && clock <= time
    requires BlockedUntil(l, AdmissionLimit(fact.recipient), time).None?
    ensures fact.time + ADMISSION_SPACING <= time
  {
    var limit := AdmissionLimit(fact.recipient);
    BlockedMeansFull(l, limit, time);
    assert Counted(l, limit, time - limit.window) == {};
    if event :| Held(l, fact.recipient, event, fact.time) {
      assert Allocation(RecipientScope, fact.recipient, Kind.Admission, event) !in Counted(l, limit, time - limit.window);
    }
  }

  // --------------------------------------------------------------- what a write stores

  lemma EvolvedCooldown(a: Db, b: Db, fact: Fact)
    requires Cooling(fact) && CoolingRecorded(a, fact) && DbEvolves(a, b)
    ensures CoolingRecorded(b, fact)
    ensures b.deliveries[OperationOf(fact)].saved == a.deliveries[OperationOf(fact)].saved
  {
    assert Evolves(a.deliveries[OperationOf(fact)], b.deliveries[OperationOf(fact)]);
  }

  lemma ActivationCools(db: Db, w: Write)
    requires Allowed(db, w) && w.Activating?
    ensures NewFacts(db, w) == [Activated(w.operation, w.time)]
    ensures CoolingRecorded(Perform(db, w), Activated(w.operation, w.time))
  {
  }

  lemma ExplicitCools(db: Db, w: Write)
    requires Allowed(db, w) && w.Sending? && NewFacts(db, w) != []
    ensures var d := db.deliveries[w.operation];
            && NewFacts(db, w) == [Explicit(AttemptId(w.operation, |d.attempts|), d.saved.recipient, w.time)]
            && d.op.nextUserSendAt <= w.time
            && BlockedUntil(db.env.ledger, AdmissionLimit(d.saved.recipient), w.time).None?
            && CoolingRecorded(Perform(db, w), NewFacts(db, w)[0])
  {
    hide ChooseTarget, RequireAccess, CaptureAuthority, RequestSendLocked, SuppressPending, Schedule, Count, Store;
    var d := db.deliveries[w.operation];
    var recipient := d.saved.recipient;
    RequestDecidedFirst(db, w.operation, w.principal, w.action, w.time);
    TargetOffered(db, d, w.action, w.time);
    RetryAtExact(db.env.ledger, [AdmissionLimit(recipient)], w.time, w.time);
    assert AdmissionLimit(recipient) in [AdmissionLimit(recipient)];
    UnblockedMember(db.env.ledger, [AdmissionLimit(recipient)], w.time, AdmissionLimit(recipient));
    var intent := CapturedIntent(db.env.world, d.saved, ReasonOf(w.action), w.principal, w.time);
    SentCooldown(db, w.operation, ChooseTarget(db, d, w.action, w.time).value.position, ReasonOf(w.action), intent, w.time);
  }

  lemma SentCooldown(db: Db, operation: Id, position: nat, reason: Reason, intent: Intent, time: Time)
    requires operation in db.deliveries
    ensures var s := Store(db, operation, SendExplicit(db.deliveries[operation], position, reason, intent, time));
            && operation in s.deliveries
            && s.deliveries[operation].saved == db.deliveries[operation].saved
            && s.deliveries[operation].op.nextUserSendAt == time + db.deliveries[operation].saved.resendCooldown
  {
  }

  lemma DispatchCools(db: Db, w: Write)
    requires DbValid(db) && Allowed(db, w) && Commits(db, w)
    ensures CoolingRecorded(Perform(db, w), Dispatched(w.attempt, db.deliveries[w.attempt.operation].saved.recipient, w.time))
  {
    hide DbValid, RetryAt, AvailableProviders, NextProvider, IntentEligible, Count, ExtendAdmission;
  }

  // -------------------------------------------------------------- within an operation

  lemma NewFactCools(db: Db, w: Write)
    requires DbValid(db) && Allowed(db, w)
    requires NewFacts(db, w) != [] && Cooling(NewFacts(db, w)[0])
    ensures CoolingRecorded(Perform(db, w), NewFacts(db, w)[0])
  {
    hide DbValid, Perform, Allowed, NewFacts, CoolingRecorded, Commits;
    FactKinds(db, w);
    if w.Activating? {
      ActivationCools(db, w);
    } else if w.Sending? {
      ExplicitCools(db, w);
    } else {
      DispatchCools(db, w);
    }
  }

  lemma CooldownsKeptBy(db: Db, w: Write)
    requires DbValid(db) && Allowed(db, w) && CooldownsKept(db)
    ensures CooldownsKept(Perform(db, w))
  {
    hide DbValid, Perform, Allowed, NewFacts, DbEvolves;
    WriteKeeps(db, w);
    FactKinds(db, w);
    var b, facts := TrailAfter(db, w);
    forall k | 0 <= k < |b.trail| && Cooling(b.trail[k]) ensures CoolingRecorded(b, b.trail[k]) {
      if k < |db.trail| {
        assert b.trail[k] == db.trail[k];
        EvolvedCooldown(db, b, b.trail[k]);
      } else {
        NewFactCools(db, w);
      }
    }
    forall j: nat, k: nat | j < k < |b.trail| ensures SpacedWithin(b, j, k) {
      assert b.trail[j] == db.trail[j];
      if Cooling(db.trail[j]) {
        EvolvedCooldown(db, b, db.trail[j]);
      }
      if k < |db.trail| {
        assert SpacedWithin(db, j, k) && b.trail[k] == db.trail[k];
      } else if b.trail[k].Explicit? {
        ExplicitCools(db, w);
      }
    }
  }

  // ------------------------------------------------------------- across operations

  lemma StillRemembered(l: Ledger, clock: Time, m: Ledger, later: Time, fact: Fact)
    requires Occupying(fact) && Remembered(l, clock, fact) && clock <= later
    requires forall event | Held(l, fact.recipient, event, fact.time) ::
               Held(m, fact.recipient, event, fact.time) || fact.time <= later - DAY
    ensures Remembered(m, later, fact)
  {
    if event :| Held(l, fact.recipient, event, fact.time) {
      assert Held(m, fact.recipient, event, fact.time) || fact.time <= later - DAY;
    }
  }

  lemma CountHolds(l: Ledger, limits: seq<Limit>, event: EventId, time: Time, recipient: Id)
    ensures var c := Count(l, limits, event, time);
            && (forall r, e, t | Held(l, r, e, t) :: Held(c, r, e, t))
            && (AdmissionLimit(recipient) in limits && EventKey(event, Kind.Admission) !in l.events ==>
                  Held(c, recipient, event, time))
  {
    CountShape(l, limits, event, time);
    if AdmissionLimit(recipient) in limits {
      var k :| 0 <= k < |limits| && limits[k] == AdmissionLimit(recipient);
      AllocatedWhereTouched(limits, event, AllocationFor(limits[k], event));
    }
  }

  lemma ExtendHolds(l: Ledger, recipient: Id, event: EventId, time: Time)
    ensures var c := ExtendAdmission(l, recipient, event, time);
            && (forall r, e, t | Held(l, r, e, t) :: Held(c, r, e, t))
            && Held(c, recipient, event, time)
  {
  }

  lemma CleanupHolds(l: Ledger, doomed: set<EventKey>, time: Time)
    requires Deletable(l, doomed, time)
    ensures forall r, e, t | Held(l, r, e, t) :: Held(Cleanup(l, doomed), r, e, t) || t <= time - DAY
  {
  }

  /** What a write remembers, and which check its new fact passed. */
  ghost predicate Remembers(db: Db, w: Write)
    requires Allowed(db, w)
  {
    var b := Perform(db, w);
    && (forall r, e, t | Held(db.env.ledger, r, e, t) :: Held(b.env.ledger, r, e, t) || t <= b.clock - DAY)
    && (NewFacts(db, w) != [] && Occupying(NewFacts(db, w)[0]) ==>
          var fact := NewFacts(db, w)[0];
          && (exists event :: Held(b.env.ledger, fact.recipient, event, fact.time))
          && (fact.Admitted? || fact.Explicit? ==>
                && db.clock <= fact.time
                && BlockedUntil(db.env.ledger, AdmissionLimit(fact.recipient), fact.time).None?))
  }

  lemma AdmittingRemembers(db: Db, w: Write)
    requires Allowed(db, w) && LedgerSound(db) && w.Admitting?
    ensures Remembers(db, w)
  {
    hide RetryAt, BlockedUntil, Count, Admit, Held;
    AdmissionCharges(db, w.operation, w.input, w.time);
    if Admit(db, w.operation, w.input, w.time).result.Success? {
      var recipient := w.input.saved.recipient;
      var limits := AdmissionLimits(db.env, recipient);
      assert limits[1] in limits;
      CountHolds(db.env.ledger, limits, OperationEvent(w.operation), w.time, recipient);
      UnblockedMember(db.env.ledger, limits, w.time, AdmissionLimit(recipient));
      var fact := Admitted(w.operation, recipient, w.time);
      assert NewFacts(db, w) == [fact];
      assert Held(Perform(db, w).env.ledger, fact.recipient, OperationEvent(w.operation), fact.time);
      assert db.clock <= fact.time;
      assert BlockedUntil(db.env.ledger, AdmissionLimit(fact.recipient), fact.time).None?;
    }
  }

  lemma SendingRemembers(db: Db, w: Write)
    requires DbValid(db) && Allowed(db, w) && LedgerSound(db) && w.Sending?
    ensures Remembers(db, w)
  {
    hide DbValid, Perform, NewFacts, RetryAt, BlockedUntil, Count, ChooseTarget, Held, CoolingRecorded;
    SendCharges(db, w);
    var d := db.deliveries[w.operation];
    if ChooseTarget(db, d, w.action, w.time).Success? {
      var event := AttemptEvent(w.operation, |d.attempts|);
      assert !Present(db, AttemptId(w.operation, |d.attempts|));
      CountHolds(db.env.ledger, [AdmissionLimit(d.saved.recipient)], event, w.time, d.saved.recipient);
      ExplicitCools(db, w);
    }
  }

  lemma CommittingRemembers(db: Db, w: Write)
    requires DbValid(db) && Allowed(db, w) && Commits(db, w)
    ensures Remembers(db, w)
  {
    hide DbValid, Perform, Allowed, NewFacts, RetryAt, BlockedUntil, Count, ExtendAdmission, Held, SendLimits, CommonLimits;
    CommitCharges(db, w);
    FactKinds(db, w);
    var saved := db.deliveries[w.attempt.operation].saved;
    var limits := SendLimits(db.env, saved, StepAt(db, w.attempt).instance);
    CountHolds(db.env.ledger, limits, EventOf(w.attempt), w.time, saved.recipient);
    ExtendHolds(Count(db.env.ledger, limits, EventOf(w.attempt), w.time), saved.recipient, EventOf(w.attempt), w.time);
  }

  lemma GuessHolds(db: Db, w: Write)
    requires w.Guessing? && Allowed(db, w)
    ensures forall r, e, t | Held(db.env.ledger, r, e, t) :: Held(Perform(db, w).env.ledger, r, e, t)
  {
    hide Held, Count, RetryAt;
    CountHolds(db.env.ledger, GuessLimits(db.env.settings, w.recipient), GuessEvent(w.guess), w.time, w.recipient);
  }

  lemma WriteRemembers(db: Db, w: Write)
    requires DbValid(db) && Allowed(db, w) && LedgerSound(db)
    ensures Remembers(db, w)
  {
    hide DbValid, Perform, Allowed, NewFacts, Held, BlockedUntil, LedgerSound, Commits;
    WriteRecords(db, w);
    FactKinds(db, w);
    if w.Admitting? {
      AdmittingRemembers(db, w);
    } else if w.Sending? {
      SendingRemembers(db, w);
    } else if Commits(db, w) {
      CommittingRemembers(db, w);
    } else if w.Guessing? {
      GuessingKept(db, w);
      GuessHolds(db, w);
    } else if w.Cleaning? {
      CleaningKept(db, w);
      CleanupHolds(db.env.ledger, w.doomed, w.time);
    }
  }

  lemma AdmissionsSpacedKept(db: Db, w: Write)
    requires DbValid(db) && Allowed(db, w) && AdmissionsSpaced(db)
    ensures AdmissionsSpaced(Perform(db, w))
  {
    hide DbValid, Perform, Allowed, NewFacts, Held, BlockedUntil, LedgerSound;
    LedgerKept(db, w);
    WriteRemembers(db, w);
    var b, facts := TrailAfter(db, w);
    forall k | 0 <= k < |b.trail| && Occupying(b.trail[k]) ensures Remembered(b.env.ledger, b.clock, b.trail[k]) {
      if k < |db.trail| {
        assert b.trail[k] == db.trail[k];
        StillRemembered(db.env.ledger, db.clock, b.env.ledger, b.clock, b.trail[k]);
      }
    }
    forall j: nat, k: nat | j < k < |b.trail| ensures SpacedAcross(b.trail, j, k) {
      assert b.trail[j] == db.trail[j];
      if k < |db.trail| {
        assert SpacedAcross(db.trail, j, k) && b.trail[k] == db.trail[k];
      } else if Occupying(b.trail[j]) && (b.trail[k].Admitted? || b.trail[k].Explicit?) && b.trail[j].recipient == b.trail[k].recipient {
        CheckedSpacing(db.env.ledger, db.clock, db.trail[j], b.trail[k].time);
      }
    }
  }

  ghost predicate Spaced(db: Db) { CooldownsKept(db) && AdmissionsSpaced(db) }

  lemma SpacedInductive()
    ensures Inductive(Spaced)
  {
    hide DbValid, Allowed, Perform, CooldownsKept, AdmissionsSpaced;
    forall db: Db, w: Write | Allowed(db, w) && DbValid(db) && Spaced(db)
      ensures Spaced(Perform(db, w))
    {
      CooldownsKeptBy(db, w);
      AdmissionsSpacedKept(db, w);
    }
  }

  /** In every reachable state: an explicit send keeps at least the operation's cooldown after its activation,
      its earlier explicit sends and its earlier commitments; and an admission or explicit send for a recipient
      keeps at least thirty seconds after any earlier admission, explicit send or commitment for that recipient. */
  lemma SendsAreSpaced(db: Db, j: nat, k: nat)
    requires Reachable(db) && j < k < |db.trail|
    ensures SpacedWithin(db, j, k) && SpacedAcross(db.trail, j, k)
  {
    hide DbValid, Inductive, Reachable;
    SpacedInductive();
    forall settings, clock ensures Spaced(EmptyDb(settings, clock)) {
      assert LedgerSound(EmptyDb(settings, clock));
    }
    ReachableHas(db, Spaced);
  }

  /** The cooldown column never goes back, so a later read can only postpone the next explicit send. */
  lemma CooldownNeverDecreases(db: Db, steps: seq<Step>, operation: Id)
    requires DbValid(db) && HonestRun(db, steps) && operation in db.deliveries
    ensures operation in Run(db, steps).deliveries
    ensures db.deliveries[operation].op.nextUserSendAt <= Run(db, steps).deliveries[operation].op.nextUserSendAt
  {
    hide DbValid, HonestRun, Run;
    RunsOnlyEvolve(db, steps);
    assert Evolves(db.deliveries[operation], Run(db, steps).deliveries[operation]);
  }
}
