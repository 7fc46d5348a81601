/** The engine never exceeds a create, guess or send limit that stayed in force: not in any window, at any instant
    of any run, although one commitment is charged to many limits at once. */
module Windows {
  import opened Prelude
  import opened Records
  import opened Authority
  import opened Quotas
  import opened QuotaProofs
  import opened Eligibility
  import opened Engine
  import opened EngineInvariant
  import opened EngineWrites
  import opened EngineFrames
  import opened EngineRuns
  import opened LedgerRecords

  predicate UpdatesProject(fact: Fact, project: Id) {
    fact.Administered? && fact.command.UpdateProject? && fact.command.project == project
  }

  predicate SavesScope(fact: Fact, scope: Id) {
    fact.Administered? && fact.command.SaveScope? && fact.command.scope == scope
  }

  predicate NeverUpdated(trail: seq<Fact>, project: Id) {
    forall k | 0 <= k < |trail| :: !UpdatesProject(trail[k], project)
  }

  predicate SavedOnce(trail: seq<Fact>, scope: Id) {
    forall j, k | 0 <= j < |trail| && 0 <= k < |trail| && SavesScope(trail[j], scope) && SavesScope(trail[k], scope) :: j == k
  }

  /** The limit is what the deployment prescribes for its scope, and has been ever since the scope exists. */
  predicate InForce(db: Db, limit: Limit) {
    var s := db.env.settings;
    var w := db.env.world;
    match limit.scope
    case RecipientScope =>
      || limit == RecipientLimit(limit.scopeId, Create, s.recipientCreateLimit15m)
      || limit == RecipientLimit(limit.scopeId, Send, s.recipientSendLimit15m)
      || limit == RecipientLimit(limit.scopeId, Guess, s.recipientGuessLimit15m)
    case DeploymentScope =>
      || limit == Limit(DeploymentScope, 0, Send, s.deploymentSendLimit15m, QUARTER_HOUR)
      || limit == Limit(DeploymentScope, 0, Send, s.deploymentSendLimit24h, DAY)
    case ProjectScope =>
      && limit.scopeId in w.projects && NeverUpdated(db.trail, limit.scopeId)
      && (limit == Limit(ProjectScope, limit.scopeId, Send, w.projects[limit.scopeId].sendLimit15m, QUARTER_HOUR)
          || limit == Limit(ProjectScope, limit.scopeId, Send, w.projects[limit.scopeId].sendLimit24h, DAY))
    case SharedScope =>
      && limit.scopeId in w.scopes && SavedOnce(db.trail, limit.scopeId)
      && (limit == Short(w.scopes[limit.scopeId]) || limit == Long(w.scopes[limit.scopeId]))
    case InstanceScope => limit == Limit(InstanceScope, limit.scopeId, Send, 2147483647, DAY)
    case AccountScope => limit == Limit(AccountScope, limit.scopeId, Send, 2147483647, DAY)
  }

  /** A shared scope exists exactly since it was first saved. */
  ghost predicate ScopesTraced(db: Db) {
    && (forall k | 0 <= k < |db.trail| && db.trail[k].Administered? && db.trail[k].command.SaveScope? ::
          db.trail[k].command.scope in db.env.world.scopes)
    && (forall scope | scope in db.env.world.scopes :: exists k :: 0 <= k < |db.trail| && SavesScope(db.trail[k], scope))
  }

  ghost predicate WindowsHold(db: Db) {
    && LedgerSound(db)
    && ScopesTraced(db)
    && forall limit | InForce(db, limit) && LimitValid(limit) :: Bounded(db.env.ledger, limit)
  }

  // ---------------------------------------------------------- limits that a charge touches

  /** Whatever is charged to the scope of a limit in force is checked against that very limit. */
  lemma CommitChecksLimit(db: Db, saved: Saved, instance: Id, limit: Limit)
    requires InForce(db, limit) && ScopesKeyed(db.env.world)
    requires saved.project in db.env.world.projects
    requires Touches(SendLimits(db.env, saved, instance), limit)
    ensures limit in SendLimits(db.env, saved, instance)
  {
    hide SharedScopes, SharedSendLimits, SavedOnce, NeverUpdated;
    var limits := SendLimits(db.env, saved, instance);
    var i :| 0 <= i < |limits| && SameScope(limits[i], limit);
    var k := SendLimitsAre(db.env, saved, instance, limits[i]);
    var common := CommonLimits(db.env, saved);
    assert common[0] in limits && common[1] in limits && common[2] in limits && common[3] in limits && common[4] in limits;
    assert limits[5] in limits && limits[6] in limits;
    if limits[i] in common {
      assert limits[i] == common[0] || limits[i] == common[1] || limits[i] == common[2]
        || limits[i] == common[3] || limits[i] == common[4];
    } else if limit.scope.SharedScope? {
      SharedPair(db, saved, instance, k, limit);
    } else {
      assert limit.scope.InstanceScope? || limit.scope.AccountScope?;
      ProviderPair(db, saved, instance, limits[i], limit);
    }
  }

  lemma SharedPair(db: Db, saved: Saved, instance: Id, k: nat, limit: Limit)
    requires ScopesKeyed(db.env.world) && InForce(db, limit) && limit.scope.SharedScope?
    requires k < |SharedOf(db.env, instance)| && SharedOf(db.env, instance)[k].scope == limit.scopeId
    ensures limit in SendLimits(db.env, saved, instance)
  {
    hide SharedScopes, SharedSendLimits, CommonLimits, SavedOnce;
    var scopes := SharedOf(db.env, instance);
    var shared := SharedSendLimits(scopes);
    SharedScopesMembers(db.env.world,
      ScopesOf(db.env.world, InstanceKey(instance)) + ScopesOf(db.env.world, AccountKey(AccountOf(db.env.world, instance))));
    SharedLimitsAre(scopes);
    assert shared[2 * k] in shared && shared[2 * k + 1] in shared;
    assert limit in shared;
  }

  lemma ProviderPair(db: Db, saved: Saved, instance: Id, found: Limit, limit: Limit)
    requires found in SendLimits(db.env, saved, instance) && found !in CommonLimits(db.env, saved)
    requires SameScope(found, limit) && InForce(db, limit)
    requires limit.scope.InstanceScope? || limit.scope.AccountScope?
    ensures limit in SendLimits(db.env, saved, instance)
  {
    hide SharedScopes, SharedSendLimits;
    var common := CommonLimits(db.env, saved);
    var shared := SharedSendLimits(SharedOf(db.env, instance));
    SharedLimitsShared(SharedOf(db.env, instance));
    var account := AccountOf(db.env.world, instance);
    var own := [Limit(InstanceScope, instance, Send, 2147483647, DAY), Limit(AccountScope, account, Send, 2147483647, DAY)];
    assert SendLimits(db.env, saved, instance) == common + (own + shared);
    assert found in own || found in shared;
    assert found !in shared;
  }

  // ------------------------------------------------------------------- it is kept

  lemma CommittedBounded(db: Db, w: Write, limit: Limit)
    requires DbValid(db) && Allowed(db, w) && LedgerSound(db) && Commits(db, w)
    requires InForce(db, limit) && LimitValid(limit) && Bounded(db.env.ledger, limit)
    ensures Bounded(Perform(db, w).env.ledger, limit)
  {
    hide DbValid, Perform, Allowed, SendLimits, CommonLimits, RetryAt, Count, ExtendAdmission, Bounded;
    CommitCharges(db, w);
    CommitWrites(db, w);
    GatedClock(db, w);
    ScopesAreKeyed(db);
    var saved := db.deliveries[w.attempt.operation].saved;
    var instance := StepAt(db, w.attempt).instance;
    var limits := SendLimits(db.env, saved, instance);
    var event := EventOf(w.attempt);
    SendLimitsNamed(db, saved, instance);
    forall k | 0 <= k < |limits| ensures EventKey(event, limits[k].kind) !in db.env.ledger.events {
      UncommittedUncounted(db, w.attempt);
    }
    if Touches(limits, limit) {
      CommittedProject(db, w);
      CommitChecksLimit(db, saved, instance, limit);
    }
    ChargeKeepsBound(db.env.ledger, limits, limits, event, w.time, limit);
    InForceKinds(db, limit);
    ExtendKeepsBound(Count(db.env.ledger, limits, event, w.time), saved.recipient, event, w.time, limit);
  }

  lemma UncommittedUncounted(db: Db, id: AttemptId)
    requires EventsNamed(db) && CommittedOf(db, id).None?
    ensures EventKey(EventOf(id), Send) !in db.env.ledger.events
  {
  }

  lemma InForceKinds(db: Db, limit: Limit)
    requires InForce(db, limit)
    ensures limit.kind.Create? || limit.kind.Send? || limit.kind.Guess?
    ensures limit.kind.Guess? ==> limit == RecipientLimit(limit.scopeId, Kind.Guess, db.env.settings.recipientGuessLimit15m)
    ensures limit.kind.Create? ==> limit == RecipientLimit(limit.scopeId, Create, db.env.settings.recipientCreateLimit15m)
  {
  }

  /** A dispatch needs an eligible intent, so its project exists. */
  lemma CommittedProject(db: Db, w: Write)
    requires DbValid(db) && Allowed(db, w) && Commits(db, w)
    ensures w.Gating? && Addressable(db, w.attempt)
    ensures db.deliveries[w.attempt.operation].saved.project in db.env.world.projects
  {
    hide RetryAt, AvailableProviders, NextProvider;
    assert RowsCaptured(db.env.world, db.deliveries[w.attempt.operation]);
  }

  lemma AdmittedBounded(db: Db, w: Write, limit: Limit)
    requires DbValid(db) && Allowed(db, w) && LedgerSound(db) && w.Admitting?
    requires InForce(db, limit) && LimitValid(limit) && Bounded(db.env.ledger, limit)
    ensures Bounded(Perform(db, w).env.ledger, limit)
  {
    hide DbValid, RetryAt, Count, Bounded, Admit;
    AdmissionCharges(db, w.operation, w.input, w.time);
    if Admit(db, w.operation, w.input, w.time).result.Success? {
      var limits := AdmissionLimits(db.env, w.input.saved.recipient);
      var event := OperationEvent(w.operation);
      forall k | 0 <= k < |limits| ensures EventKey(event, limits[k].kind) !in db.env.ledger.events {}
      if Touches(limits, limit) {
        InForceKinds(db, limit);
        assert limits[0] in limits;
      }
      ChargeKeepsBound(db.env.ledger, limits, limits, event, w.time, limit);
    }
  }

  lemma SentBounded(db: Db, w: Write, limit: Limit)
    requires DbValid(db) && Allowed(db, w) && LedgerSound(db) && w.Sending?
    requires InForce(db, limit) && LimitValid(limit) && Bounded(db.env.ledger, limit)
    ensures Bounded(Perform(db, w).env.ledger, limit)
  {
    hide DbValid, Perform, RetryAt, Count, Bounded, ChooseTarget;
    SendCharges(db, w);
    var d := db.deliveries[w.operation];
    if ChooseTarget(db, d, w.action, w.time).Success? {
      var limits := [AdmissionLimit(d.saved.recipient)];
      var event := AttemptEvent(w.operation, |d.attempts|);
      assert !Present(db, AttemptId(w.operation, |d.attempts|));
      assert Fresh(db.env.ledger, limits, event);
      InForceKinds(db, limit);
      UnblockedAtNone(db.env.ledger, w.time);
      ChargeKeepsBound(db.env.ledger, limits, [], event, w.time, limit);
    }
  }

  lemma GuessedBounded(db: Db, w: Write, limit: Limit)
    requires DbValid(db) && Allowed(db, w) && LedgerSound(db) && w.Guessing?
    requires InForce(db, limit) && LimitValid(limit) && Bounded(db.env.ledger, limit)
    ensures Bounded(Perform(db, w).env.ledger, limit)
  {
    hide DbValid, Perform, Allowed, RetryAt, Count, Bounded;
    GuessingKept(db, w);
    var limits := GuessLimits(db.env.settings, w.recipient);
    if RetryAt(db.env.ledger, limits, w.time).None? {
      InForceKinds(db, limit);
      assert limits[0] in limits;
      ChargeKeepsBound(db.env.ledger, limits, limits, GuessEvent(w.guess), w.time, limit);
    }
  }

  lemma UnblockedAtNone(l: Ledger, time: Time)
    ensures RetryAt(l, [], time).None?
  {
  }

  // -------------------------------------------------------- administration and scopes

  lemma InForceBefore(db: Db, w: Write, limit: Limit)
    requires DbValid(db) && Allowed(db, w) && InForce(Perform(db, w), limit)
    requires !w.Administering?
    ensures InForce(db, limit)
  {
    hide DbValid, Perform, Allowed;
    WriteRecords(db, w);
    var b, facts := TrailAfter(db, w);
    SameScopesTraced(db, b);
  }

  lemma SameScopesTraced(a: Db, b: Db)
    requires a.trail <= b.trail
    ensures forall project | NeverUpdated(b.trail, project) :: NeverUpdated(a.trail, project)
    ensures forall scope | SavedOnce(b.trail, scope) :: SavedOnce(a.trail, scope)
  {
    forall project | NeverUpdated(b.trail, project) ensures NeverUpdated(a.trail, project) {
      forall k | 0 <= k < |a.trail| ensures !UpdatesProject(a.trail[k], project) {
        assert a.trail[k] == b.trail[k];
      }
    }
    forall scope | SavedOnce(b.trail, scope) ensures SavedOnce(a.trail, scope) {
      forall j, k | 0 <= j < |a.trail| && 0 <= k < |a.trail| && SavesScope(a.trail[j], scope) && SavesScope(a.trail[k], scope)
        ensures j == k
      {
        assert a.trail[j] == b.trail[j] && a.trail[k] == b.trail[k];
      }
    }
  }

  /** Administration leaves the ledger alone, and what comes into force has never been charged. */
  lemma AdministeredBounded(db: Db, command: Command, limit: Limit)
    requires WindowsHold(db) && LimitValid(limit)
    requires InForce(AdministerWorld(db, command), limit)
    ensures Bounded(db.env.ledger, limit)
  {
    hide LedgerSound, Bounded;
    var b := AdministerWorld(db, command);
    SameScopesTraced(db, b);
    assert b.trail[|db.trail|] == Administered(command);
    if !InForce(db, limit) {
      NewScope(db, command, limit);
      UnchargedBounded(db, limit);
    }
  }

  lemma NewScope(db: Db, command: Command, limit: Limit)
    requires ScopesTraced(db) && !InForce(db, limit) && InForce(AdministerWorld(db, command), limit)
    ensures limit.scope.ProjectScope? || limit.scope.SharedScope?
    ensures limit.scope.ProjectScope? ==> limit.scopeId !in db.env.world.projects
    ensures limit.scope.SharedScope? ==> limit.scopeId !in db.env.world.scopes
  {
    var b := AdministerWorld(db, command);
    SameScopesTraced(db, b);
    assert b.trail[|db.trail|] == Administered(command);
    SavedAgain(db, command, limit.scopeId);
  }

  lemma SavedAgain(db: Db, command: Command, scope: Id)
    requires ScopesTraced(db)
    ensures scope in db.env.world.scopes && SavesScope(Administered(command), scope) ==>
              !SavedOnce(AdministerWorld(db, command).trail, scope)
  {
    if scope in db.env.world.scopes && SavesScope(Administered(command), scope) {
      var b := AdministerWorld(db, command);
      var k :| 0 <= k < |db.trail| && SavesScope(db.trail[k], scope);
      assert SavesScope(b.trail[k], scope) && SavesScope(b.trail[|db.trail|], scope);
    }
  }

  lemma UnchargedBounded(db: Db, limit: Limit)
    requires LedgerSound(db)
    requires || (limit.scope.ProjectScope? && limit.scopeId !in db.env.world.projects)
             || (limit.scope.SharedScope? && limit.scopeId !in db.env.world.scopes)
    ensures Bounded(db.env.ledger, limit)
  {
    forall end: Time ensures |InWindow(db.env.ledger, limit, end)| <= limit.maximum {
      assert InWindow(db.env.ledger, limit, end) == {};
    }
  }

  lemma ScopesTracedKept(db: Db, w: Write)
    requires DbValid(db) && Allowed(db, w) && ScopesTraced(db)
    ensures ScopesTraced(Perform(db, w))
  {
    hide DbValid, Perform, Allowed;
    WriteRecords(db, w);
    FactKinds(db, w);
    var b, facts := TrailAfter(db, w);
    if w.Administering? {
      AdministeredScopes(db, w);
    }
    forall k | 0 <= k < |b.trail| && b.trail[k].Administered? && b.trail[k].command.SaveScope?
      ensures b.trail[k].command.scope in b.env.world.scopes
    {
      assert k < |db.trail| ==> b.trail[k] == db.trail[k];
    }
    forall scope | scope in b.env.world.scopes ensures exists k :: 0 <= k < |b.trail| && SavesScope(b.trail[k], scope) {
      if scope in db.env.world.scopes {
        var k :| 0 <= k < |db.trail| && SavesScope(db.trail[k], scope);
        assert SavesScope(b.trail[k], scope);
      } else {
        assert SavesScope(b.trail[|db.trail|], scope);
      }
    }
  }

  lemma AdministeredScopes(db: Db, w: Write)
    requires Allowed(db, w) && w.Administering?
    ensures NewFacts(db, w) == [Administered(w.command)]
    ensures var scopes := Perform(db, w).env.world.scopes;
            && (forall scope | scope in db.env.world.scopes :: scope in scopes)
            && (forall scope | scope in scopes && scope !in db.env.world.scopes ::
                  w.command.SaveScope? && w.command.scope == scope)
            && (w.command.SaveScope? ==> w.command.scope in scopes)
  {
    hide Administer;
    ScopesAfter(db.env.world, w.command);
  }

  lemma ScopesAfter(w: World, command: Command)
    ensures Administer(w, command).scopes ==
              if command.SaveScope? then w.scopes[command.scope := command.limits.(scope := command.scope)] else w.scopes
  {
  }

  lemma WindowsKept(db: Db, w: Write)
    requires DbValid(db) && Allowed(db, w) && WindowsHold(db)
    ensures WindowsHold(Perform(db, w))
  {
    hide DbValid, Perform, Allowed, LedgerSound, ScopesTraced, InForce, Bounded, Commits, LimitValid;
    LedgerKept(db, w);
    ScopesTracedKept(db, w);
    WriteRecords(db, w);
    var b := Perform(db, w);
    forall limit | InForce(b, limit) && LimitValid(limit) ensures Bounded(b.env.ledger, limit) {
      if w.Administering? {
        AdministeringBounded(db, w, limit);
      } else {
        InForceBefore(db, w, limit);
        if Commits(db, w) {
          CommittedBounded(db, w, limit);
        } else if w.Admitting? {
          AdmittedBounded(db, w, limit);
        } else if w.Sending? {
          SentBounded(db, w, limit);
        } else if w.Guessing? {
          GuessedBounded(db, w, limit);
        } else if w.Cleaning? {
          CleaningKept(db, w);
          CleanupKeepsBound(db.env.ledger, w.doomed, limit);
        }
      }
    }
  }

  lemma AdministeringBounded(db: Db, w: Write, limit: Limit)
    requires Allowed(db, w) && w.Administering? && WindowsHold(db)
    requires InForce(Perform(db, w), limit) && LimitValid(limit)
    ensures Bounded(Perform(db, w).env.ledger, limit)
  {
    hide LedgerSound, ScopesTraced, InForce, Bounded, LimitValid, Administer;
    AdministeredBounded(db, w.command, limit);
  }

  lemma WindowsInductive()
    ensures Inductive(WindowsHold)
  {
    hide DbValid, Allowed, Perform, WindowsHold;
    forall db: Db, w: Write | Allowed(db, w) && DbValid(db) && WindowsHold(db)
      ensures WindowsHold(Perform(db, w))
    {
      WindowsKept(db, w);
    }
  }

  lemma EmptyWindows(settings: Settings, clock: Time)
    ensures WindowsHold(EmptyDb(settings, clock))
  {
    var db := EmptyDb(settings, clock);
    forall limit | InForce(db, limit) && LimitValid(limit) ensures Bounded(db.env.ledger, limit) {
      forall end: Time ensures |InWindow(db.env.ledger, limit, end)| <= limit.maximum {
        assert InWindow(db.env.ledger, limit, end) == {};
      }
    }
  }

  /** In every reachable state, no window of any limit in force, wherever it ends, holds more admissions,
      wrong guesses or commitments than the limit's maximum. */
  lemma EngineWindowSafety(db: Db, limit: Limit, end: Time)
    requires Reachable(db) && InForce(db, limit) && LimitValid(limit)
    ensures |InWindow(db.env.ledger, limit, end)| <= limit.maximum
  {
    hide DbValid, Inductive, Reachable, LedgerSound, ScopesTraced, InForce, LimitValid;
    WindowsInductive();
    forall settings, clock ensures WindowsHold(EmptyDb(settings, clock)) {
      EmptyWindows(settings, clock);
    }
    ReachableHas(db, WindowsHold);
    assert Bounded(db.env.ledger, limit);
  }
}
