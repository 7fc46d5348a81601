/** How the engine uses the quota ledger: which checks precede each charge, and whose events it holds. */
module LedgerRecords {
  import opened Prelude
  import opened Records
  import opened Routing
  import opened Authority
  import opened Quotas
  import opened QuotaProofs
  import opened Eligibility
  import opened Engine
  import opened EngineInvariant
  import opened EngineSteps
  import opened EngineWrites
  import opened EngineFrames

  // ------------------------------------------------------------------ what is charged

  /** An admission is charged to the creation and admission limits that it passed. */
  lemma AdmissionCharges(db: Db, operation: Id, input: Admission, time: Time)
    ensures var r := Admit(db, operation, input, time);
            var recipient := input.saved.recipient;
            if r.result.Success? then
              && operation !in db.deliveries
              && r.db.env.ledger == Count(db.env.ledger, AdmissionLimits(db.env, recipient), OperationEvent(operation), time)
              && RetryAt(db.env.ledger, AdmissionLimits(db.env, recipient), time).None?
              && r.db.clock == Max(db.clock, time)
              && r.db.trail == db.trail + [Admitted(operation, recipient, time)]
              && operation in r.db.deliveries
              && r.db.deliveries[operation].saved.recipient == recipient
            else r.db == db
  {
    hide AvailableProviders, Count, RetryAt, AdmissionLimits;
  }

  /** An explicit send is charged to the recipient's admission limit, which its cooldown check passed. */
  lemma SendCharges(db: Db, w: Write)
    requires Allowed(db, w) && w.Sending?
    ensures var d := db.deliveries[w.operation];
            var r := Perform(db, w);
            if ChooseTarget(db, d, w.action, w.time).Success? then
              && r.env.ledger == Count(db.env.ledger, [AdmissionLimit(d.saved.recipient)],
                                       AttemptEvent(w.operation, |d.attempts|), w.time)
              && r.deliveries.Keys == db.deliveries.Keys
              && |r.deliveries[w.operation].attempts| == |d.attempts| + 1
              && NewFacts(db, w) == [Explicit(AttemptId(w.operation, |d.attempts|), d.saved.recipient, w.time)]
            else r == db && NewFacts(db, w) == []
  {
    hide ChooseTarget, RequireAccess, CaptureAuthority, Count, RequestSendLocked;
    RequestDecidedFirst(db, w.operation, w.principal, w.action, w.time);
    hide SendExplicit;
    if ChooseTarget(db, db.deliveries[w.operation], w.action, w.time).Success? {
      var d := db.deliveries[w.operation];
      var intent := CapturedIntent(db.env.world, d.saved, ReasonOf(w.action), w.principal, w.time);
      SentAttempts(d, ChooseTarget(db, d, w.action, w.time).value.position, ReasonOf(w.action), intent, w.time);
    }
  }

  lemma SentAttempts(d: Delivery, position: nat, reason: Reason, intent: Intent, time: Time)
    ensures |SendExplicit(d, position, reason, intent, time).attempts| == |d.attempts| + 1
  {
  }

  /** A commitment is charged to every send limit of its instance, all of which it passed. */
  lemma CommitCharges(db: Db, w: Write)
    requires Allowed(db, w) && Commits(db, w)
    ensures w.Gating? && Addressable(db, w.attempt)
    ensures var saved := db.deliveries[w.attempt.operation].saved;
            var limits := SendLimits(db.env, saved, StepAt(db, w.attempt).instance);
            var event := EventOf(w.attempt);
            && RetryAt(db.env.ledger, limits, w.time).None?
            && RetryAt(db.env.ledger, CommonLimits(db.env, saved), w.time).None?
            && Perform(db, w).env.ledger ==
                 ExtendAdmission(Count(db.env.ledger, limits, event, w.time), saved.recipient, event, w.time)
  {
    hide Gate, RetryAt, SendLimits, CommonLimits, Count, ExtendAdmission, AvailableProviders, IntentEligible, NextProvider;
    var id := w.attempt;
    var d := db.deliveries[id.operation];
    var instance := StepAt(db, id).instance;
    var available := AvailableProviders(db.env, d.saved, w.time, Some(IntentAt(db, id)));
    FoundInstance(available, instance);
    var target := FindInstance(available, instance).value;
    AvailableExact(db.env, d.saved, w.time, Some(IntentAt(db, id)), target);
  }

  // -------------------------------------------------------------- whose events it holds

  /** Events belong to operations and attempts that exist; only committed attempts count as sends. */
  ghost predicate EventsNamed(db: Db) {
    forall key | key in db.env.ledger.events ::
      match key.event
      case OperationEvent(operation) => operation in db.deliveries
      case AttemptEvent(operation, i) =>
        Present(db, AttemptId(operation, i)) && (key.kind.Send? ==> Known(db, AttemptId(operation, i)))
      case GuessEvent(guess) => key.kind.Guess? && WasGuessed(db, guess)
  }

  /** Scopes that an administrator creates are charged only once they exist. */
  ghost predicate ScopesNamed(db: Db) {
    forall a | a in db.env.ledger.allocations ::
      && (a.scope.ProjectScope? ==> a.scopeId in db.env.world.projects)
      && (a.scope.SharedScope? ==> a.scopeId in db.env.world.scopes)
  }

  ghost predicate ScopesKeyed(w: World) {
    forall scope | scope in w.scopes :: w.scopes[scope].scope == scope
  }

  ghost predicate LedgerSound(db: Db) {
    && LedgerValid(db.env.ledger)
    && Past(db.env.ledger, db.clock)
    && EventsNamed(db)
    && ScopesNamed(db)
    && ScopesKeyed(db.env.world)
  }

  /** Operations, attempts, commitments, projects and scopes do not disappear. */
  ghost predicate NamesKept(a: Db, b: Db) {
    && (forall operation | operation in a.deliveries :: operation in b.deliveries)
    && (forall id: AttemptId | Present(a, id) :: Present(b, id))
    && (forall id: AttemptId | Known(a, id) :: Known(b, id))
    && (forall project | project in a.env.world.projects :: project in b.env.world.projects)
    && (forall scope | scope in a.env.world.scopes :: scope in b.env.world.scopes)
    && (ScopesKeyed(a.env.world) ==> ScopesKeyed(b.env.world))
    && (forall guess | WasGuessed(a, guess) :: WasGuessed(b, guess))
  }

  lemma AdministerNames(w: World, command: Command)
    ensures forall project | project in w.projects :: project in Administer(w, command).projects
    ensures forall scope | scope in w.scopes :: scope in Administer(w, command).scopes
    ensures ScopesKeyed(w) ==> ScopesKeyed(Administer(w, command))
  {
  }

  lemma WriteNames(db: Db, w: Write)
    requires DbValid(db) && Allowed(db, w)
    ensures NamesKept(db, Perform(db, w))
  {
    hide DbValid, Perform, Allowed, Administer;
    WriteKeeps(db, w);
    WriteRecords(db, w);
    var b := Perform(db, w);
    forall id: AttemptId | Present(db, id) ensures Present(b, id) && (Known(db, id) ==> Known(b, id)) {
      ValidAddressable(db, id);
      EvolvedRows(db, b, id);
    }
    EvolvedKeys(db, b);
    EvolvedGuesses(db, b);
    if w.Administering? {
      AdministeredNames(db, w);
    }
  }

  lemma AdministeredNames(db: Db, w: Write)
    requires Allowed(db, w) && w.Administering?
    ensures forall project | project in db.env.world.projects :: project in Perform(db, w).env.world.projects
    ensures forall scope | scope in db.env.world.scopes :: scope in Perform(db, w).env.world.scopes
    ensures ScopesKeyed(db.env.world) ==> ScopesKeyed(Perform(db, w).env.world)
  {
    hide Administer;
    AdministerNames(db.env.world, w.command);
  }

  lemma EvolvedRows(a: Db, b: Db, id: AttemptId)
    requires DbEvolves(a, b) && Addressable(a, id)
    ensures Present(b, id) && (Known(a, id) ==> Known(b, id))
  {
    AddressableLater(a, b, id);
  }

  lemma EvolvedKeys(a: Db, b: Db)
    requires DbEvolves(a, b)
    ensures forall operation | operation in a.deliveries :: operation in b.deliveries
  {
  }

  lemma EvolvedGuesses(a: Db, b: Db)
    requires a.trail <= b.trail
    ensures forall guess | WasGuessed(a, guess) :: WasGuessed(b, guess)
  {
    forall guess | WasGuessed(a, guess) ensures WasGuessed(b, guess) {
      var k :| 0 <= k < |a.trail| && a.trail[k].Guessed? && a.trail[k].guess == guess;
      assert b.trail[k] == a.trail[k];
    }
  }

  lemma SameLedgerSound(a: Db, b: Db)
    requires LedgerSound(a) && NamesKept(a, b) && b.env.ledger == a.env.ledger && a.clock <= b.clock
    ensures LedgerSound(b)
  {
  }

  lemma CleanLedgerSound(a: Db, b: Db, doomed: set<EventKey>)
    requires LedgerSound(a) && NamesKept(a, b) && b.env.ledger == Cleanup(a.env.ledger, doomed) && a.clock <= b.clock
    ensures LedgerSound(b)
  {
  }

  ghost predicate Named(db: Db, event: EventId, kind: Kind) {
    match event
    case OperationEvent(operation) => operation in db.deliveries
    case AttemptEvent(operation, i) =>
      Present(db, AttemptId(operation, i)) && (kind.Send? ==> Known(db, AttemptId(operation, i)))
    case GuessEvent(guess) => kind.Guess? && WasGuessed(db, guess)
  }

  ghost predicate LimitsNamed(db: Db, limits: seq<Limit>) {
    forall k | 0 <= k < |limits| ::
      && (limits[k].scope.ProjectScope? ==> limits[k].scopeId in db.env.world.projects)
      && (limits[k].scope.SharedScope? ==> limits[k].scopeId in db.env.world.scopes)
  }

  /** Charging an existing event to existing scopes. */
  lemma CountLedgerSound(a: Db, b: Db, limits: seq<Limit>, event: EventId, time: Time)
    requires LedgerSound(a) && NamesKept(a, b) && a.clock <= time <= b.clock
    requires b.env.ledger == Count(a.env.ledger, limits, event, time)
    requires LimitsNamed(a, limits)
    requires forall k | 0 <= k < |limits| :: Named(b, event, limits[k].kind)
    ensures LedgerSound(b)
  {
    hide Named, Count;
    var l := a.env.ledger;
    CountShape(l, limits, event, time);
    forall key | key in b.env.ledger.events ensures Named(b, key.event, key.kind) {
      if key in l.events {
        NamedLater(a, b, key);
      } else {
        CountedKind(l, limits, event, time, key);
      }
    }
    assert EventsNamed(b) by {
      AllNamed(b);
    }
    forall x | x in b.env.ledger.allocations
      ensures (x.scope.ProjectScope? ==> x.scopeId in b.env.world.projects)
      ensures (x.scope.SharedScope? ==> x.scopeId in b.env.world.scopes)
    {
      if x !in l.allocations {
        AllocatedWhereTouched(limits, event, x);
      }
    }
  }

  lemma AllNamed(b: Db)
    requires forall key | key in b.env.ledger.events :: Named(b, key.event, key.kind)
    ensures EventsNamed(b)
  {
  }

  lemma NamedLater(a: Db, b: Db, key: EventKey)
    requires EventsNamed(a) && NamesKept(a, b) && key in a.env.ledger.events
    ensures Named(b, key.event, key.kind)
  {
  }

  lemma CountedKind(l: Ledger, limits: seq<Limit>, event: EventId, time: Time, key: EventKey)
    requires key in Count(l, limits, event, time).events && key !in l.events
    ensures key.event == event && exists k :: 0 <= k < |limits| && limits[k].kind == key.kind
  {
    CountedKeys(l, limits, event, time);
  }

  lemma ExtendLedgerSound(b: Db, l: Ledger, recipient: Id, event: EventId, time: Time)
    requires LedgerSound(b.(env := b.env.(ledger := l))) && b.env.ledger == ExtendAdmission(l, recipient, event, time)
    requires time <= b.clock && Named(b, event, Kind.Admission)
    ensures LedgerSound(b)
  {
    assert EventsNamed(b.(env := b.env.(ledger := l)));
  }

  lemma {:induction false} SharedScopesMembers(w: World, scopes: seq<Id>)
    requires ScopesKeyed(w)
    ensures forall k | 0 <= k < |SharedScopes(w, scopes)| ::
              SharedScopes(w, scopes)[k].scope in w.scopes && SharedScopes(w, scopes)[k] == w.scopes[SharedScopes(w, scopes)[k].scope]
  {
    if scopes != [] {
      SharedScopesMembers(w, scopes[..|scopes|-1]);
    }
  }

  function Short(s: SharedLimit): Limit { Limit(SharedScope, s.scope, Send, s.sendLimit15m, QUARTER_HOUR) }

  function Long(s: SharedLimit): Limit { Limit(SharedScope, s.scope, Send, s.sendLimit24h, DAY) }

  /** Each shared scope contributes exactly its two windows. */
  lemma {:induction false} SharedLimitsAre(scopes: seq<SharedLimit>)
    ensures |SharedSendLimits(scopes)| == 2 * |scopes|
    ensures forall k | 0 <= k < |scopes| ::
              SharedSendLimits(scopes)[2 * k] == Short(scopes[k]) && SharedSendLimits(scopes)[2 * k + 1] == Long(scopes[k])
  {
    if scopes != [] {
      SharedLimitsAre(scopes[..|scopes|-1]);
    }
  }

  lemma {:induction false} SharedLimitsShared(scopes: seq<SharedLimit>)
    ensures forall j | 0 <= j < |SharedSendLimits(scopes)| :: SharedSendLimits(scopes)[j].scope.SharedScope?
  {
    if scopes != [] {
      SharedLimitsShared(scopes[..|scopes|-1]);
    }
  }

  function SharedOf(env: Environment, instance: Id): seq<SharedLimit> {
    SharedScopes(env.world,
      ScopesOf(env.world, InstanceKey(instance)) + ScopesOf(env.world, AccountKey(AccountOf(env.world, instance))))
  }

  /** Each of the shared limits is one of the two windows of some scope. */
  lemma {:induction false} SharedLimitFrom(scopes: seq<SharedLimit>, j: nat) returns (k: nat)
    requires j < |SharedSendLimits(scopes)|
    ensures k < |scopes| && (SharedSendLimits(scopes)[j] == Short(scopes[k]) || SharedSendLimits(scopes)[j] == Long(scopes[k]))
  {
    var n := |scopes| - 1;
    if j < |SharedSendLimits(scopes[..n])| {
      k := SharedLimitFrom(scopes[..n], j);
    } else {
      k := n;
    }
  }

  /** Every send limit is a common one, an instance or account window, or one of a shared scope's two. */
  lemma SendLimitsAre(env: Environment, saved: Saved, instance: Id, limit: Limit) returns (k: nat)
    requires limit in SendLimits(env, saved, instance)
    ensures limit.kind.Send?
    ensures limit in CommonLimits(env, saved) || limit.scope.InstanceScope? || limit.scope.AccountScope?
              || (k < |SharedOf(env, instance)| && (limit == Short(SharedOf(env, instance)[k]) || limit == Long(SharedOf(env, instance)[k])))
  {
    var scopes := SharedOf(env, instance);
    var common := CommonLimits(env, saved);
    var shared := SharedSendLimits(scopes);
    var limits := SendLimits(env, saved, instance);
    var i :| 0 <= i < |limits| && limits[i] == limit;
    k := 0;
    if i < |common| {
      assert limits[i] == common[i];
      assert |common| == 5 && (i == 0 || i == 1 || i == 2 || i == 3 || i == 4);
    } else if i >= |common| + 2 {
      var j := i - |common| - 2;
      assert limits[i] == shared[j];
      k := SharedLimitFrom(scopes, j);
    }
  }

  lemma SendLimitsNamed(db: Db, saved: Saved, instance: Id)
    requires ScopesKeyed(db.env.world)
    ensures LimitsNamed(db, SendLimits(db.env, saved, instance))
    ensures forall k | 0 <= k < |SendLimits(db.env, saved, instance)| :: SendLimits(db.env, saved, instance)[k].kind.Send?
  {
    hide SendLimits, SharedScopes, SharedSendLimits;
    var limits := SendLimits(db.env, saved, instance);
    var ids := ScopesOf(db.env.world, InstanceKey(instance)) + ScopesOf(db.env.world, AccountKey(AccountOf(db.env.world, instance)));
    SharedScopesMembers(db.env.world, ids);
    forall k | 0 <= k < |limits|
      ensures limits[k].kind.Send?
      ensures limits[k].scope.ProjectScope? ==> limits[k].scopeId in db.env.world.projects
      ensures limits[k].scope.SharedScope? ==> limits[k].scopeId in db.env.world.scopes
    {
      var j := SendLimitsAre(db.env, saved, instance, limits[k]);
    }
  }

  // ------------------------------------------------------------------- it is kept

  lemma CommitLedgerSound(db: Db, w: Write)
    requires DbValid(db) && Allowed(db, w) && LedgerSound(db) && Commits(db, w)
    ensures LedgerSound(Perform(db, w))
  {
    hide DbValid, Perform, Allowed, SendLimits, CommonLimits, RetryAt, Count, ExtendAdmission, LedgerSound, NamesKept;
    CommitCharges(db, w);
    WriteNames(db, w);
    WriteRecords(db, w);
    GatedClock(db, w);
    CommitWrites(db, w);
    var b := Perform(db, w);
    var saved := db.deliveries[w.attempt.operation].saved;
    var limits := SendLimits(db.env, saved, StepAt(db, w.attempt).instance);
    var counted := Count(db.env.ledger, limits, EventOf(w.attempt), w.time);
    ScopesAreKeyed(db);
    SendLimitsNamed(db, saved, StepAt(db, w.attempt).instance);
    var mid := b.(env := b.env.(ledger := counted));
    NamesKeptMid(db, b, counted);
    CountLedgerSound(db, mid, limits, EventOf(w.attempt), w.time);
    ExtendLedgerSound(b, counted, saved.recipient, EventOf(w.attempt), w.time);
  }

  lemma GatedClock(db: Db, w: Write)
    requires Allowed(db, w) && w.Gating?
    ensures db.clock == w.time
  {
  }

  lemma ScopesAreKeyed(db: Db)
    requires LedgerSound(db)
    ensures ScopesKeyed(db.env.world)
  {
  }

  lemma NamesKeptMid(a: Db, b: Db, l: Ledger)
    requires NamesKept(a, b)
    ensures NamesKept(a, b.(env := b.env.(ledger := l)))
  {
  }

  lemma LedgerKept(db: Db, w: Write)
    requires DbValid(db) && Allowed(db, w) && LedgerSound(db)
    ensures LedgerSound(Perform(db, w))
  {
    hide DbValid, Perform, LedgerSound, NamesKept, Commits, Count, AdmissionLimits;
    WriteNames(db, w);
    WriteRecords(db, w);
    var b := Perform(db, w);
    if Commits(db, w) {
      CommitLedgerSound(db, w);
    } else if w.Admitting? {
      AdmittingKept(db, w);
    } else if w.Sending? {
      SendingKept(db, w);
    } else if w.Cleaning? {
      CleaningKept(db, w);
    } else if w.Guessing? {
      GuessingKept(db, w);
    } else {
      SameLedgerSound(db, b);
    }
  }

  lemma AdmittingKept(db: Db, w: Write)
    requires DbValid(db) && Allowed(db, w) && LedgerSound(db) && w.Admitting?
    ensures LedgerSound(Perform(db, w))
  {
    hide DbValid, LedgerSound, NamesKept, Count, Admit, RetryAt;
    AdmissionCharges(db, w.operation, w.input, w.time);
    WriteNames(db, w);
    var r := Admit(db, w.operation, w.input, w.time);
    if r.result.Success? {
      CountLedgerSound(db, r.db, AdmissionLimits(db.env, w.input.saved.recipient), OperationEvent(w.operation), w.time);
    }
  }

  lemma SendingKept(db: Db, w: Write)
    requires DbValid(db) && Allowed(db, w) && LedgerSound(db) && w.Sending?
    ensures LedgerSound(Perform(db, w))
  {
    hide DbValid, LedgerSound, NamesKept, Count, ChooseTarget, RequestSendLocked;
    SendCharges(db, w);
    WriteNames(db, w);
    WriteRecords(db, w);
    var d := db.deliveries[w.operation];
    if ChooseTarget(db, d, w.action, w.time).Success? {
      CountLedgerSound(db, Perform(db, w), [AdmissionLimit(d.saved.recipient)], AttemptEvent(w.operation, |d.attempts|), w.time);
    }
  }

  lemma CleaningKept(db: Db, w: Write)
    requires DbValid(db) && Allowed(db, w) && LedgerSound(db) && w.Cleaning?
    ensures LedgerSound(Perform(db, w))
    ensures Perform(db, w).env.ledger == Cleanup(db.env.ledger, w.doomed)
    ensures Deletable(db.env.ledger, w.doomed, w.time) && db.clock <= w.time == Perform(db, w).clock
  {
    hide DbValid, LedgerSound, NamesKept, Cleanup;
    WriteNames(db, w);
    CleanLedgerSound(db, Perform(db, w), w.doomed);
  }

  lemma NewGuessUncounted(db: Db, guess: Id)
    requires LedgerSound(db) && !WasGuessed(db, guess)
    ensures EventKey(GuessEvent(guess), Kind.Guess) !in db.env.ledger.events
  {
  }

  lemma GuessingKept(db: Db, w: Write)
    requires DbValid(db) && Allowed(db, w) && LedgerSound(db) && w.Guessing?
    ensures LedgerSound(Perform(db, w))
    ensures var limits := GuessLimits(db.env.settings, w.recipient);
            var event := GuessEvent(w.guess);
            && db.clock <= w.time == Perform(db, w).clock
            && (forall fact | fact in Perform(db, w).trail :: fact in db.trail || fact.Guessed?)
            && (if RetryAt(db.env.ledger, limits, w.time).Some? then Perform(db, w).env.ledger == db.env.ledger
                else Perform(db, w).env.ledger == Count(db.env.ledger, limits, event, w.time))
            && EventKey(event, Kind.Guess) !in db.env.ledger.events
  {
    hide DbValid, LedgerSound, NamesKept, Count, RetryAt;
    WriteNames(db, w);
    NewGuessUncounted(db, w.guess);
    if RetryAt(db.env.ledger, GuessLimits(db.env.settings, w.recipient), w.time).Some? {
      SameLedgerSound(db, Perform(db, w));
    } else {
      assert Perform(db, w).trail[|db.trail|] == Guessed(w.guess, w.recipient, w.time);
      CountLedgerSound(db, Perform(db, w), GuessLimits(db.env.settings, w.recipient), GuessEvent(w.guess), w.time);
    }
  }

  lemma LedgerInductive()
    ensures Inductive(LedgerSound)
  {
    hide DbValid, Allowed, Perform, LedgerSound;
    forall db: Db, w: Write | Allowed(db, w) && DbValid(db) && LedgerSound(db)
      ensures LedgerSound(Perform(db, w))
    {
      LedgerKept(db, w);
    }
  }
}
