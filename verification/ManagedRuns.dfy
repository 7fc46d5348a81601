/** Managed challenges beside the engine: the delivery operation of a challenge is a row of the engine, both are written
    in the same transactions, and they stay in step over every run of both. */
module ManagedRuns {
  import opened Prelude
  import opened Records
  import opened RoutingInvariant
  import opened Authority
  import opened Quotas
  import opened Eligibility
  import opened Engine
  import opened EngineInvariant
  import opened EngineSteps
  import opened EngineWrites
  import opened EngineRuns
  import Verification

  datatype Managed = Managed(terms: Verification.Terms, challenge: Verification.Challenge)

  /** Challenges are kept under the operation that delivers their code. */
  datatype Site = Site(db: Db, challenges: map<Id, Managed>)

  // ---------------------------------------------------------------------- transitions

  /** `synchronize`: a challenge whose operation ended follows it in the same transaction. */
  function Follow(m: Managed, d: Delivery): Managed {
    if Verification.OpLive(m.challenge.operation) && !Live(d.op)
    then m.(challenge := Verification.CloseDelivery(m.challenge, d.op.state)) else m
  }

  function Synchronize(challenges: map<Id, Managed>, db: Db): map<Id, Managed> {
    map operation | operation in challenges ::
      if operation in db.deliveries then Follow(challenges[operation], db.deliveries[operation]) else challenges[operation]
  }

  /** What a managed challenge is created with, apart from what its operation holds. */
  datatype Draft = Draft(verifier: Id, maxIncorrectGuesses: nat, codeLength: nat, binding: Id)

  function CreatedTerms(saved: Saved, draft: Draft): Verification.Terms {
    Verification.Terms(saved.recipient, draft.maxIncorrectGuesses, draft.codeLength, saved.expiresAt, draft.binding)
  }

  /** The operation as the challenge's transaction leaves it: expired when due, closed when the challenge ended. */
  function SettleOperation(db: Db, operation: Id, closes: bool, time: Time): Db {
    if closes then Close(db, operation, time) else ExpireOperation(db, operation, time)
  }

  function Closes(before: Verification.Challenge, after: Verification.Challenge): bool {
    Verification.OpLive(before.operation) && after.operation.Closed?
  }

  function VerdictOf(site: Site, operation: Id, request: Verification.Request, guess: Id, id: Id, time: Time): Verification.Verdict
    requires operation in site.challenges
  {
    var m := site.challenges[operation];
    Verification.Verify(m.challenge, site.db.env.ledger, site.db.env.settings, m.terms, request, guess, id, time)
  }

  /** A verification writes the challenge, its operation and the ledger together. */
  function VerifyAt(site: Site, operation: Id, request: Verification.Request, guess: Id, id: Id, time: Time): Site
    requires operation in site.challenges
  {
    var m := site.challenges[operation];
    var v := VerdictOf(site, operation, request, guess, id, time);
    if request.binding != m.terms.binding then site
    else
      var settled := SettleOperation(site.db, operation, Closes(m.challenge, v.challenge), time);
      var counted := v.challenge.incorrectGuesses > m.challenge.incorrectGuesses;
      Site(if counted then CountGuess(settled, m.terms.recipient, guess, time) else settled,
           site.challenges[operation := m.(challenge := v.challenge)])
  }

  function CancelAt(site: Site, operation: Id, request: Verification.Request, time: Time): Site
    requires operation in site.challenges
  {
    var m := site.challenges[operation];
    var c := Verification.Cancel(m.challenge, m.terms, request, time).0;
    Site(SettleOperation(site.db, operation, Closes(m.challenge, c), time), site.challenges[operation := m.(challenge := c)])
  }

  datatype SiteStep =
    | EngineDoes(step: Step)
    | Creates(operation: Id, principal: Id, input: Admission, code: Code, draft: Draft, time: Time, later: Time)
    | Verifies(operation: Id, request: Verification.Request, guess: Id, id: Id, time: Time)
    | Cancels(operation: Id, request: Verification.Request, time: Time)

  function SiteNext(site: Site, step: SiteStep): Site {
    match step
    case EngineDoes(s) =>
      var db := Transact(site.db, s);
      Site(db, Synchronize(site.challenges, db))
    case Creates(operation, principal, input, code, draft, time, later) =>
      var db := CreateOperation(site.db, operation, principal, input, code, time, later);
      if operation in site.db.deliveries || operation !in db.deliveries then site
      else Site(db, site.challenges[operation :=
             Managed(CreatedTerms(db.deliveries[operation].saved, draft), Verification.Created(draft.verifier))])
    case Verifies(operation, request, guess, id, time) =>
      if operation in site.challenges then VerifyAt(site, operation, request, guess, id, time) else site
    case Cancels(operation, request, time) =>
      if operation in site.challenges then CancelAt(site, operation, request, time) else site
  }

  /** The environment's promises; configured guess limits are positive. */
  ghost predicate SiteHonest(site: Site, step: SiteStep) {
    match step
    case EngineDoes(s) => Honest(site.db, s)
    case Creates(operation, principal, input, code, draft, time, later) =>
      site.db.clock <= time <= later && 0 < draft.maxIncorrectGuesses
    case Verifies(_, _, guess, _, time) => site.db.clock <= time && !WasGuessed(site.db, guess)
    case Cancels(_, _, time) => site.db.clock <= time
  }

  function SiteRun(site: Site, steps: seq<SiteStep>): Site {
    if steps == [] then site else SiteNext(SiteRun(site, steps[..|steps|-1]), steps[|steps|-1])
  }

  ghost predicate SiteRunHonest(site: Site, steps: seq<SiteStep>) {
    steps != [] ==>
      SiteRunHonest(site, steps[..|steps|-1]) && SiteHonest(SiteRun(site, steps[..|steps|-1]), steps[|steps|-1])
  }

  // ------------------------------------------------------------------------ invariant

  /** The challenge and the engine's row of its operation say the same. */
  ghost predicate InStep(db: Db, operation: Id, m: Managed) {
    && operation in db.deliveries
    && var d := db.deliveries[operation];
       && m.challenge.operation == d.op.state && !d.op.state.Prepared?
       && m.terms.expiresAt == d.saved.expiresAt && m.terms.recipient == d.saved.recipient
       && 0 < m.terms.maxIncorrectGuesses
       && Verification.Coupled(m.challenge, m.terms)
  }

  ghost predicate AllInStep(site: Site) {
    forall operation | operation in site.challenges :: InStep(site.db, operation, site.challenges[operation])
  }

  lemma OneStep(db: Db, step: Step)
    requires DbValid(db) && Honest(db, step)
    ensures DbValid(Transact(db, step)) && DbEvolves(db, Transact(db, step))
  {
    hide DbValid, DbEvolves, Honest, Transact;
    assert [step][..|[step]|-1] == [] && Run(db, []) == db && HonestRun(db, []);
    assert HonestRun(db, [step]) && Run(db, [step]) == Transact(db, step);
    RunsOnlyEvolve(db, [step]);
  }

  lemma FollowKeeps(a: Db, b: Db, operation: Id, m: Managed)
    requires DbEvolves(a, b) && InStep(a, operation, m)
    ensures operation in b.deliveries && InStep(b, operation, Follow(m, b.deliveries[operation]))
  {
    assert Evolves(a.deliveries[operation], b.deliveries[operation]);
    if Verification.OpLive(m.challenge.operation) {
      ClosingKeeps(m.challenge, m.terms);
    }
  }

  lemma ClosingKeeps(c: Verification.Challenge, terms: Verification.Terms)
    requires Verification.Coupled(c, terms) && Verification.OpLive(c.operation) && 0 < terms.maxIncorrectGuesses
    ensures Verification.Coupled(Verification.CloseDelivery(c, Closed), terms)
    ensures Verification.Coupled(Verification.CloseDelivery(c, Expired), terms)
  {
    Verification.NextKeeps(c, terms, Verification.CloseCommand);
    Verification.NextKeeps(c, terms, Verification.ExpireCommand(terms.expiresAt));
  }

  // ------------------------------------------------------------ transactions of a challenge

  /** What is left of an operation that was live, as both sides see it. */
  function EndsAs(state: OperationState, expiresAt: Time, closes: bool, time: Time): OperationState {
    if !Verification.OpLive(state) then state
    else if time >= expiresAt then Expired
    else if closes then Closed else state
  }

  function SettleStep(operation: Id, closes: bool, time: Time): Step {
    if closes then CloseStep(operation, time) else ExpireStep(operation, time)
  }

  lemma SettledRows(db: Db, operation: Id, closes: bool, time: Time)
    requires operation in db.deliveries && db.clock <= time
    ensures var e := SettleOperation(db, operation, closes, time);
            && e == Transact(db, SettleStep(operation, closes, time)) && Honest(db, SettleStep(operation, closes, time))
            && e.clock == time && e.env == db.env && e.trail == db.trail
            && operation in e.deliveries
            && e.deliveries[operation].saved == db.deliveries[operation].saved
            && e.deliveries[operation].op.state ==
                 EndsAs(db.deliveries[operation].op.state, db.deliveries[operation].saved.expiresAt, closes, time)
            && forall other | other in db.deliveries && other != operation ::
                 other in e.deliveries && e.deliveries[other] == db.deliveries[other]
  {
    hide RegisterScheduled;
  }

  lemma VerifiedEnds(c: Verification.Challenge, l: Ledger, settings: Settings, terms: Verification.Terms,
                     request: Verification.Request, guess: Id, id: Id, time: Time)
    requires Verification.Coupled(c, terms) && request.binding == terms.binding && 0 < terms.maxIncorrectGuesses
    ensures var v := Verification.Verify(c, l, settings, terms, request, guess, id, time);
            && Verification.Coupled(v.challenge, terms)
            && v.challenge.operation == EndsAs(c.operation, terms.expiresAt, Closes(c, v.challenge), time)
            && (v.challenge.incorrectGuesses > c.incorrectGuesses ==>
                  RetryAt(l, GuessLimits(settings, terms.recipient), time).None?)
            && v.ledger == (if v.challenge.incorrectGuesses > c.incorrectGuesses
                            then ChargeGuess(l, settings, terms.recipient, guess, time) else l)
  {
    Verification.NextKeeps(c, terms, Verification.VerifyCommand(l, settings, request, guess, id, time));
    hide RetryAt, Count;
  }

  lemma CancelledEnds(c: Verification.Challenge, terms: Verification.Terms, request: Verification.Request, time: Time)
    requires Verification.Coupled(c, terms) && 0 < terms.maxIncorrectGuesses
    ensures var d := Verification.Cancel(c, terms, request, time).0;
            Verification.Coupled(d, terms) && d.operation == EndsAs(c.operation, terms.expiresAt, Closes(c, d), time)
  {
    Verification.NextKeeps(c, terms, Verification.CancelCommand(request, time));
  }

  lemma OthersInStep(a: Db, b: Db, operation: Id, m: Managed)
    requires InStep(a, operation, m) && operation in b.deliveries && b.deliveries[operation] == a.deliveries[operation]
    ensures InStep(b, operation, m)
  {
  }

  /** The engine's part of a verification is at most two of its own transactions: ending the operation and counting. */
  lemma VerifyStays(site: Site, operation: Id, request: Verification.Request, guess: Id, id: Id, time: Time)
    requires DbValid(site.db) && AllInStep(site) && operation in site.challenges
    requires site.db.clock <= time && !WasGuessed(site.db, guess)
    ensures AllInStep(VerifyAt(site, operation, request, guess, id, time))
    ensures Reachable(site.db) ==> Reachable(VerifyAt(site, operation, request, guess, id, time).db)
    ensures VerifyAt(site, operation, request, guess, id, time).db.env.ledger == VerdictOf(site, operation, request, guess, id, time).ledger
  {
    hide Reachable, DbValid, Transact, Honest, SettleOperation, RetryAt, Count;
    var m := site.challenges[operation];
    assert InStep(site.db, operation, m);
    if request.binding == m.terms.binding {
      VerifiedEnds(m.challenge, site.db.env.ledger, site.db.env.settings, m.terms, request, guess, id, time);
      var v := VerdictOf(site, operation, request, guess, id, time);
      var closes := Closes(m.challenge, v.challenge);
      SettledRows(site.db, operation, closes, time);
      var settled := SettleOperation(site.db, operation, closes, time);
      var after := VerifyAt(site, operation, request, guess, id, time);
      SameGuessed(site.db, settled, guess);
      CountingReaches(site.db, settled, SettleStep(operation, closes, time), m.terms.recipient, guess, time);
      assert InStep(after.db, operation, after.challenges[operation]);
      forall other | other in after.challenges ensures InStep(after.db, other, after.challenges[other]) {
        if other != operation {
          assert InStep(site.db, other, site.challenges[other]);
          OthersInStep(site.db, after.db, other, site.challenges[other]);
        }
      }
    }
  }

  lemma SameGuessed(a: Db, b: Db, guess: Id)
    requires b.trail == a.trail
    ensures WasGuessed(a, guess) <==> WasGuessed(b, guess)
  {
  }

  lemma CountingReaches(db: Db, settled: Db, step: Step, recipient: Id, guess: Id, time: Time)
    requires settled == Transact(db, step) && Honest(db, step) && settled.clock == time && !WasGuessed(settled, guess)
    ensures Reachable(db) ==> Reachable(settled) && Reachable(CountGuess(settled, recipient, guess, time))
  {
    hide Reachable, CountGuess, Honest, Transact;
    if Reachable(db) {
      ReachableNext(db, step);
      GuessIsHonest(settled, recipient, guess, time);
      ReachableNext(settled, GuessStep(recipient, guess, time));
    }
  }

  lemma GuessIsHonest(db: Db, recipient: Id, guess: Id, time: Time)
    requires db.clock <= time && !WasGuessed(db, guess)
    ensures Honest(db, GuessStep(recipient, guess, time))
    ensures Transact(db, GuessStep(recipient, guess, time)) == CountGuess(db, recipient, guess, time)
  {
    hide CountGuess;
  }

  lemma CancelStays(site: Site, operation: Id, request: Verification.Request, time: Time)
    requires AllInStep(site) && operation in site.challenges && site.db.clock <= time
    ensures AllInStep(CancelAt(site, operation, request, time))
    ensures Reachable(site.db) ==> Reachable(CancelAt(site, operation, request, time).db)
  {
    hide Reachable, Transact, Honest, SettleOperation;
    var m := site.challenges[operation];
    assert InStep(site.db, operation, m);
    CancelledEnds(m.challenge, m.terms, request, time);
    var c := Verification.Cancel(m.challenge, m.terms, request, time).0;
    SettledRows(site.db, operation, Closes(m.challenge, c), time);
    if Reachable(site.db) {
      ReachableNext(site.db, SettleStep(operation, Closes(m.challenge, c), time));
    }
    var after := CancelAt(site, operation, request, time);
    forall other | other in after.challenges ensures InStep(after.db, other, after.challenges[other]) {
      if other != operation {
        assert InStep(site.db, other, site.challenges[other]);
        OthersInStep(site.db, after.db, other, site.challenges[other]);
      }
    }
  }

  lemma AttachedActive(db: Db, operation: Id, principal: Id, code: Code, time: Time)
    requires operation in db.deliveries && db.deliveries[operation].op.state.Prepared?
    requires db.deliveries[operation].secrets == Some(Secrets(None))
    requires AttachCode(db, operation, principal, code, time).result.Success?
    ensures var after := AttachCode(db, operation, principal, code, time).db;
            && operation in after.deliveries && after.deliveries[operation].op.state.Active?
            && after.deliveries[operation].saved == db.deliveries[operation].saved
            && forall other | other in db.deliveries && other != operation ::
                 other in after.deliveries && after.deliveries[other] == db.deliveries[other]
  {
    hide RequireAccess, CaptureAuthority, RegisterScheduled;
  }

  /** One-step creation leaves an active operation, or nothing; other operations are left alone. */
  lemma CreatedActive(db: Db, operation: Id, principal: Id, input: Admission, code: Code, time: Time, later: Time)
    requires operation !in db.deliveries
    ensures var after := CreateOperation(db, operation, principal, input, code, time, later);
            && (operation in after.deliveries ==> after.deliveries[operation].op.state.Active?)
            && forall other | other in db.deliveries :: other in after.deliveries && after.deliveries[other] == db.deliveries[other]
  {
    hide Admit, AttachCode, RequireAccess;
    var admitted := Admit(db, operation, input, time);
    if RequireAccess(db.env.world, input.saved.project, principal, true).Success? && admitted.result.Success? {
      AdmittedPrepared(db, operation, input, time);
      if AttachCode(admitted.db, operation, principal, code, later).result.Success? {
        AttachedActive(admitted.db, operation, principal, code, later);
      }
    }
  }

  lemma AdmittedPrepared(db: Db, operation: Id, input: Admission, time: Time)
    requires Admit(db, operation, input, time).result.Success?
    ensures var after := Admit(db, operation, input, time).db;
            && operation !in db.deliveries && operation in after.deliveries
            && after.deliveries[operation].op.state.Prepared? && after.deliveries[operation].secrets == Some(Secrets(None))
            && forall other | other in db.deliveries :: other in after.deliveries && after.deliveries[other] == db.deliveries[other]
  {
    hide AvailableProviders, RetryAt, Count, PolicyUnchanged, StepsUnchanged;
  }

  lemma CreateStays(site: Site, step: SiteStep)
    requires AllInStep(site) && step.Creates? && SiteHonest(site, step)
    ensures AllInStep(SiteNext(site, step))
    ensures Reachable(site.db) ==> Reachable(SiteNext(site, step).db)
  {
    hide Reachable, CreateOperation;
    if step.operation !in site.db.deliveries {
      CreatedActive(site.db, step.operation, step.principal, step.input, step.code, step.time, step.later);
      var after := SiteNext(site, step);
      forall other | other in after.challenges ensures InStep(after.db, other, after.challenges[other]) {
        if other in site.challenges {
          assert InStep(site.db, other, site.challenges[other]);
        }
      }
      if Reachable(site.db) {
        ReachableNext(site.db, Step.CreateStep(step.operation, step.principal, step.input, step.code, step.time, step.later));
      }
    }
  }

  lemma EngineStays(site: Site, step: Step)
    requires DbValid(site.db) && AllInStep(site) && Honest(site.db, step)
    ensures AllInStep(SiteNext(site, EngineDoes(step)))
    ensures Reachable(site.db) ==> Reachable(SiteNext(site, EngineDoes(step)).db)
  {
    hide Reachable, DbValid, DbEvolves, Honest, Transact, InStep, Follow;
    OneStep(site.db, step);
    if Reachable(site.db) {
      ReachableNext(site.db, step);
    }
    var after := SiteNext(site, EngineDoes(step));
    forall operation | operation in after.challenges ensures InStep(after.db, operation, after.challenges[operation]) {
      FollowKeeps(site.db, after.db, operation, site.challenges[operation]);
    }
  }

  lemma SiteStays(site: Site, step: SiteStep)
    requires DbValid(site.db) && AllInStep(site) && SiteHonest(site, step)
    ensures AllInStep(SiteNext(site, step))
    ensures Reachable(site.db) ==> Reachable(SiteNext(site, step).db)
  {
    hide Reachable, DbValid, AllInStep, Honest, Transact, CreateOperation, WasGuessed;
    match step
    case EngineDoes(s) => EngineStays(site, s);
    case Creates(_, _, _, _, _, _, _) => CreateStays(site, step);
    case Verifies(operation, request, guess, id, time) =>
      if operation in site.challenges { VerifyStays(site, operation, request, guess, id, time); }
    case Cancels(operation, request, time) =>
      if operation in site.challenges { CancelStays(site, operation, request, time); }
  }

  function NewSite(settings: Settings, clock: Time): Site { Site(EmptyDb(settings, clock), map[]) }

  lemma {:induction false} SiteRunStays(settings: Settings, clock: Time, steps: seq<SiteStep>)
    requires SiteRunHonest(NewSite(settings, clock), steps)
    ensures var site := SiteRun(NewSite(settings, clock), steps);
            Reachable(site.db) && DbValid(site.db) && AllInStep(site)
  {
    hide Reachable, DbValid, SiteNext, SiteHonest, InStep;
    if steps == [] {
      EmptyReachable(settings, clock);
    } else {
      SiteRunStays(settings, clock, steps[..|steps|-1]);
      SiteStays(SiteRun(NewSite(settings, clock), steps[..|steps|-1]), steps[|steps|-1]);
    }
    RoutingHolds(SiteRun(NewSite(settings, clock), steps).db, 0);
  }

  /** Over every run of clients, workers, providers, administrators and verifications from a new deployment: the engine's
      state is reachable by the engine alone, so that all its results hold; and every challenge is active exactly when its
      operation is live in the engine, expired exactly when that has expired, and otherwise that is closed; the code
      verifier and code fingerprints exist only while it is live; locked means that the guesses are used up; and at most
      one verification id was ever issued. */
  lemma ChallengesFollowTheirOperations(settings: Settings, clock: Time, steps: seq<SiteStep>, operation: Id)
    requires SiteRunHonest(NewSite(settings, clock), steps)
    ensures var site := SiteRun(NewSite(settings, clock), steps);
            && Reachable(site.db)
            && (operation in site.challenges ==>
                  && operation in site.db.deliveries
                  && var m := site.challenges[operation];
                     var c := m.challenge;
                     var d := site.db.deliveries[operation];
                     && (c.state.Unverified? <==> Live(d.op))
                     && (c.state.TimedOut? <==> d.op.state.Expired?)
                     && (!c.state.Unverified? && !c.state.TimedOut? ==> d.op.state.Closed?)
                     && (c.verifier.Some? <==> Live(d.op)) && (c.deliverySecrets <==> d.secrets.Some?)
                     && (forall identity | identity in c.receipts && c.receipts[identity].codeFingerprint.Some? :: Live(d.op))
                     && (c.state.LockedOut? <==> c.incorrectGuesses == m.terms.maxIncorrectGuesses)
                     && |c.issued| <= 1 && (c.issued != [] <==> c.state.Verified?))
  {
    hide Reachable, DbValid;
    SiteRunStays(settings, clock, steps);
    var site := SiteRun(NewSite(settings, clock), steps);
    if operation in site.challenges {
      assert InStep(site.db, operation, site.challenges[operation]);
      ValidRows(site.db, operation);
    }
  }
}
