/** Every automatic resend has one cause: over whole runs, the parent of a fallback became failed exactly once. */
module FallbackHistory {
  import opened Prelude
  import opened Records
  import opened Decision
  import opened Routing
  import opened RoutingInvariant
  import opened RoutingSteps
  import opened RoutingFacts
  import opened Eligibility
  import opened Engine
  import opened EngineInvariant
  import opened EngineSteps
  import opened EngineWrites
  import opened EngineRuns
  import opened AppliedEvidence
  import opened Authority
  import opened Quotas
  import opened InboxSteps

  /** With observation `n`, and not before it, the evidence amounts to a confirmed failure. */
  predicate EntersFailed(history: seq<AttemptState>, n: nat) {
    n < |history| && Fold(Dispatching, history[..n + 1]).Failed? && !Fold(Dispatching, history[..n]).Failed?
  }

  ghost predicate EverFailed(history: seq<AttemptState>) {
    exists n: nat :: EntersFailed(history, n)
  }

  predicate FallbackAt(db: Db, operation: Id, j: nat) {
    && operation in db.deliveries && j < |db.deliveries[operation].attempts|
    && db.deliveries[operation].attempts[j].route.reason.Fallback?
  }

  ghost predicate ParentsFailed(db: Db) {
    forall operation, j: nat | FallbackAt(db, operation, j) ::
      0 < j && EverFailed(StatesOf(db.observations, AttemptId(operation, j - 1)))
  }

  // ------------------------------------------------------------------- histories

  lemma {:induction false} RankGrows(history: seq<AttemptState>, m: nat, n: nat)
    requires m <= n <= |history| && forall k | 0 <= k < |history| :: Evidential(history[k])
    ensures Invoked(Fold(Dispatching, history[..m])) && Invoked(Fold(Dispatching, history[..n]))
    ensures Rank(Fold(Dispatching, history[..m])) <= Rank(Fold(Dispatching, history[..n]))
    decreases n
  {
    if n > 0 {
      assert history[..n][..n - 1] == history[..n - 1];
      RankGrows(history, if m < n then m else n - 1, n - 1);
      ResultIsMaximum(Fold(Dispatching, history[..n - 1]), history[n - 1]);
    }
  }

  /** A failure is entered at most once: what follows it is as strong or stronger. */
  lemma FailsOnce(history: seq<AttemptState>, m: nat, n: nat)
    requires forall k | 0 <= k < |history| :: Evidential(history[k])
    requires EntersFailed(history, m) && EntersFailed(history, n)
    ensures m == n
  {
    if m < n {
      RankGrows(history, m + 1, n);
      RankGrows(history, n, n + 1);
    }
    if n < m {
      RankGrows(history, n + 1, m);
      RankGrows(history, m, m + 1);
    }
  }

  lemma FailureStays(past: seq<AttemptState>, more: seq<AttemptState>)
    requires EverFailed(past)
    ensures EverFailed(past + more)
  {
    var n: nat :| EntersFailed(past, n);
    assert (past + more)[..n + 1] == past[..n + 1] && (past + more)[..n] == past[..n];
    assert EntersFailed(past + more, n);
  }

  lemma FailureEntered(past: seq<AttemptState>)
    requires !Fold(Dispatching, past).Failed? && !Fold(Dispatching, past).Delivered? && !Fold(Dispatching, past).Suppressed?
    ensures EverFailed(past + [Failed])
  {
    var history := past + [Failed];
    FoldOne(Dispatching, past, Failed);
    assert history[..|past|] == past && history[..|past| + 1] == history;
    assert EntersFailed(history, |past|);
  }

  // --------------------------------------------------------------------- writes

  /** The write made this fallback. */
  ghost predicate Makes(db: Db, w: Write, operation: Id, j: nat)
    requires Allowed(db, w)
  {
    && FallbackAt(Perform(db, w), operation, j)
    && (operation in db.deliveries ==> |db.deliveries[operation].attempts| <= j)
  }

  /** What the parent of a new fallback was, and what was observed of it in the same write. */
  ghost predicate ParentFails(db: Db, w: Write, operation: Id, j: nat)
    requires Allowed(db, w)
  {
    && 0 < j && Present(db, AttemptId(operation, j - 1))
    && StatesOf(NewObservations(db, w), AttemptId(operation, j - 1)) == [Failed]
    && var state := AttemptAt(db, AttemptId(operation, j - 1)).evidence.state;
       if state.Pending? then w.Gating? else Known(db, AttemptId(operation, j - 1)) && !state.Failed? && !state.Delivered?
  }

  lemma MergeMakes(db: Db, id: AttemptId, outcome: Outcome, source: Source, time: Time, operation: Id, j: nat)
    requires DbValid(db) && Addressable(db, id) && FallbackAt(Merge(db, id, outcome, source, time), operation, j)
    requires operation in db.deliveries ==> |db.deliveries[operation].attempts| <= j
    ensures 0 < j && AttemptId(operation, j - 1) == id && outcome.state.Failed?
    ensures var state := AttemptAt(db, id).evidence.state; !state.Failed? && !state.Delivered? && !state.Suppressed?
  {
    hide DbValid, RowsValid, MergeOutcome, AvailableProviders, NextProvider, IntentEligible, Restrict;
    var d := db.deliveries[id.operation];
    var env := Restrict(db.env, StepAt(db, id).instance, outcome.retryAt);
    var intent := IntentAt(db, id);
    NextIsLater(env, d.saved, time, Some(intent), AttemptAt(db, id).route.position);
    var next := NextProvider(AvailableProviders(env, d.saved, time, Some(intent)), AttemptAt(db, id).route.position);
    ValidRows(db, id.operation);
    OnlyFailureFallsBack(d, id.index, outcome, IntentEligible(env.world, d.saved, intent), next, time);
  }

  lemma ReportMakes(db: Db, w: Write, operation: Id, j: nat)
    requires DbValid(db) && Allowed(db, w) && (w.Reporting? || w.Applying?) && Makes(db, w, operation, j)
    ensures ParentFails(db, w, operation, j)
  {
    hide DbValid, Merge;
    match w
    case Reporting(id, outcome, time) =>
      KnownInvoked(db, id);
      MergeMakes(db, id, outcome, Response, time, operation, j);
      SingleState(NewObservations(db, w)[0], id);
    case Applying(alias, k, time) =>
      var id := db.correlations[alias];
      RowKnown(db, alias, k);
      KnownInvoked(db, id);
      assert FallbackAt(Merge(db, id, CallbackOutcome(db.inbox[k]), Callback(k), time), operation, j);
      MergeMakes(db, id, CallbackOutcome(db.inbox[k]), Callback(k), time, operation, j);
      SingleState(NewObservations(db, w)[0], id);
  }

  /** Only a local failure at the gate can make an attempt. */
  lemma GateGrows(d: Delivery, i: nat, jobRevision: nat, time: Time, mergeTime: Time, view: GateView)
    requires RowsValid(d) && i < |d.attempts| && d.attempts[i].route.position < |d.saved.steps| && NextAfter(d, i, view.next)
    ensures var e := Gate(d, i, jobRevision, time, mergeTime, view);
            && |d.attempts| <= |e.attempts| <= |d.attempts| + 1
            && (|d.attempts| < |e.attempts| ==>
                  && GateVerdictOf(d, i, jobRevision, time, view).FailLocally?
                  && i == |d.attempts| - 1 && d.attempts[i].evidence.state.Pending?)
  {
    hide RowsValid, MergeOutcome, SendCount;
    ProcessingKeeps(d);
    if GateVerdictOf(d, i, jobRevision, time, view).FailLocally? {
      OnlyFailureFallsBack(StartProcessing(d), i, LocalFailure(view.target), view.eligible, view.next, mergeTime);
    }
  }

  lemma GateMakes(db: Db, w: Write, operation: Id, j: nat)
    requires DbValid(db) && Allowed(db, w) && w.Gating? && Makes(db, w, operation, j)
    ensures ParentFails(db, w, operation, j)
  {
    hide DbValid, RowsValid, Gate, GateVerdictOf, AvailableProviders, NextProvider, IntentEligible, FindInstance, RetryAt, CommonLimits;
    var id := w.attempt;
    var d := db.deliveries[id.operation];
    var view := ViewGate(db, id, w.time, w.mergeTime);
    NextIsLater(db.env, d.saved, w.mergeTime, Some(IntentAt(db, id)), AttemptAt(db, id).route.position);
    ValidRows(db, id.operation);
    GateGrows(d, id.index, w.jobRevision, w.time, w.mergeTime, view);
    SingleState(Observation(id, Failed, LocalCheck), id);
  }

  lemma SendsMakeNone(db: Db, w: Write, operation: Id, j: nat)
    requires DbValid(db) && Allowed(db, w) && (w.Sending? || w.Starting? || w.Admitting?)
    ensures !Makes(db, w, operation, j)
  {
    hide DbValid, RowsValid, ChooseTarget, Admit, RequestSendLocked, Count, CaptureAuthority, RequireAccess;
    match w
    case Sending(op, principal, action, time) => RequestDecidedFirst(db, op, principal, action, time);
    case Starting(_, _, _) =>
    case Admitting(op, input, time) =>
      if Admit(db, op, input, time).result.Success? {
        AdmittedRows(db, op, input, time);
      } else {
        RejectedAdmission(db, op, input, time);
      }
  }

  lemma OthersMakeNone(db: Db, w: Write, operation: Id, j: nat)
    requires DbValid(db) && Allowed(db, w) && !w.Reporting? && !w.Applying? && !w.Gating?
    requires !w.Sending? && !w.Starting? && !w.Admitting?
    ensures !Makes(db, w, operation, j)
  {
    hide DbValid, RowsValid, ClaimVerdictOf, IntentEligible, Administer, RetryAt, Count, Cleanup, RegisterScheduled, RecordDenial;
  }

  /** A fallback is made only by a write in which its parent fails. */
  lemma NewFallbackHasCause(db: Db, w: Write, operation: Id, j: nat)
    requires DbValid(db) && Allowed(db, w) && Makes(db, w, operation, j)
    ensures ParentFails(db, w, operation, j)
  {
    hide DbValid, Allowed, Makes, ParentFails;
    match w
    case Reporting(_, _, _) => ReportMakes(db, w, operation, j);
    case Applying(_, _, _) => ReportMakes(db, w, operation, j);
    case Gating(_, _, _, _) => GateMakes(db, w, operation, j);
    case Sending(_, _, _, _) => SendsMakeNone(db, w, operation, j);
    case Starting(_, _, _) => SendsMakeNone(db, w, operation, j);
    case Admitting(_, _, _) => SendsMakeNone(db, w, operation, j);
    case _ => OthersMakeNone(db, w, operation, j);
  }

  // -------------------------------------------------------------------- invariant

  lemma ParentEnters(db: Db, w: Write, operation: Id, j: nat)
    requires DbValid(db) && Allowed(db, w) && StatesFollow(db) && ObservedStarted(db) && ParentFails(db, w, operation, j)
    ensures EverFailed(StatesOf(db.observations, AttemptId(operation, j - 1)) + [Failed])
  {
    hide DbValid, Allowed, EverFailed;
    var id := AttemptId(operation, j - 1);
    if AttemptAt(db, id).evidence.state.Pending? {
      forall i | 0 <= i < |db.observations| ensures db.observations[i].attempt != id {
        assert Present(db, db.observations[i].attempt);
      }
      Untouched(db.observations, id);
    } else {
      KnownInvoked(db, id);
    }
    FailureEntered(StatesOf(db.observations, id));
  }

  lemma OldFallback(a: Db, b: Db, operation: Id, j: nat)
    requires DbEvolves(a, b) && FallbackAt(b, operation, j) && operation in a.deliveries && j < |a.deliveries[operation].attempts|
    ensures FallbackAt(a, operation, j)
  {
    assert Evolves(a.deliveries[operation], b.deliveries[operation]);
    assert Follows(a.deliveries[operation].attempts[j], b.deliveries[operation].attempts[j]);
  }

  lemma ParentsFailedKept(db: Db, w: Write)
    requires DbValid(db) && Allowed(db, w) && StatesFollow(db) && ObservedStarted(db) && ParentsFailed(db)
    ensures ParentsFailed(Perform(db, w))
  {
    hide DbValid, DbEvolves, Allowed, Perform, StatesFollow, ObservedStarted, EverFailed, NewObservations;
    WriteObserves(db, w);
    WriteKeeps(db, w);
    var b := Perform(db, w);
    forall operation, j: nat | FallbackAt(b, operation, j)
      ensures 0 < j && EverFailed(StatesOf(b.observations, AttemptId(operation, j - 1)))
    {
      if Makes(db, w, operation, j) {
        NewFallbackHasCause(db, w, operation, j);
        ParentEnters(db, w, operation, j);
        StatesOfConcat(db.observations, NewObservations(db, w), AttemptId(operation, j - 1));
      } else {
        OldFallback(db, b, operation, j);
        StatesOfConcat(db.observations, NewObservations(db, w), AttemptId(operation, j - 1));
        FailureStays(StatesOf(db.observations, AttemptId(operation, j - 1)), StatesOf(NewObservations(db, w), AttemptId(operation, j - 1)));
      }
    }
  }

  ghost predicate FallbacksCaused(db: Db) { EvidenceKept(db) && ParentsFailed(db) }

  lemma FallbacksInductive()
    ensures Inductive(FallbacksCaused)
  {
    hide DbValid, Allowed, Perform, StatesFollow, ObservedStarted, KeysUnique, RowsApplied, ParentsFailed;
    forall db: Db, w: Write | Allowed(db, w) && DbValid(db) && FallbacksCaused(db)
      ensures FallbacksCaused(Perform(db, w))
    {
      StatesFollowKept(db, w);
      ObservedStartedKept(db, w);
      KeysUniqueKept(db, w);
      RowsAppliedKept(db, w);
      ParentsFailedKept(db, w);
    }
  }

  lemma EmptyCaused(settings: Settings, clock: Time)
    ensures FallbacksCaused(EmptyDb(settings, clock))
  {
  }

  /** In every reachable state, the attempt before a fallback is its parent: under the same intent and revision, further up
      the route, and among all that was ever observed of it there is exactly one observation with which it became
      failed. Uncertain, accepted, delivered or recovered attempts have no fallback without it. */
  lemma FallbackFollowsOneFailure(db: Db, operation: Id, j: nat)
    requires Reachable(db) && FallbackAt(db, operation, j)
    ensures 0 < j && Continues(db.deliveries[operation].attempts[j - 1], db.deliveries[operation].attempts[j])
    ensures var history := StatesOf(db.observations, AttemptId(operation, j - 1));
            exists n: nat :: EntersFailed(history, n) && forall m: nat | EntersFailed(history, m) :: m == n
  {
    hide DbValid, Inductive, Reachable, EvidenceKept, EntersFailed, RowsValid;
    FallbacksInductive();
    forall settings, clock ensures FallbacksCaused(EmptyDb(settings, clock)) { EmptyCaused(settings, clock); }
    ReachableHas(db, FallbacksCaused);
    ValidRows(db, operation);
    FallbackLinked(db.deliveries[operation], j);
    var history := StatesOf(db.observations, AttemptId(operation, j - 1));
    StatesOfMembers(db.observations, AttemptId(operation, j - 1), Failed);
    assert EverFailed(history);
    var n: nat :| EntersFailed(history, n);
    forall m: nat | EntersFailed(history, m) ensures m == n {
      FailsOnce(history, m, n);
    }
  }

  lemma FallbackLinked(d: Delivery, j: nat)
    requires RowsValid(d) && j < |d.attempts| && d.attempts[j].route.reason.Fallback?
    ensures 0 < j && Continues(d.attempts[j - 1], d.attempts[j])
  {
    assert Linked(d.attempts, j);
  }
}
