/** What the routing invariant means: one piece of pending work, no stale jobs, and fallbacks that only follow
    confirmed failures down the route. */
module RoutingFacts {
  import opened Prelude
  import opened Records
  import opened Decision
  import opened Routing
  import opened RoutingInvariant
  import opened RoutingSteps
  import opened SetFacts
  import opened Eligibility
  import opened Engine
  import opened EngineInvariant
  import opened EngineSteps
  import opened EngineRuns

  /** In every reachable state an operation has at most one pending attempt. It is the current one of an active
      operation, it carries the current routing revision, and the job that was enqueued with it is not stale. */
  lemma OnePendingAttempt(db: Db, operation: Id, i: nat, j: nat)
    requires Reachable(db) && operation in db.deliveries
    requires i < |db.deliveries[operation].attempts| && j < |db.deliveries[operation].attempts|
    requires db.deliveries[operation].attempts[i].evidence.state.Pending?
    ensures db.deliveries[operation].attempts[j].evidence.state.Pending? ==> i == j
    ensures var d := db.deliveries[operation];
            && d.op.current == Some(i) && d.op.state.Active? && !d.op.recipientInvalid
            && d.attempts[i].route.revision == d.op.revision
            && !Stale(d, i, d.attempts[i].route.revision)
  {
    hide Reachable, DbValid;
    RoutingHolds(db, operation);
  }

  /** An invalid recipient ends an operation's sending for good. */
  lemma InvalidRecipientIsFinal(db: Db, steps: seq<Step>, operation: Id, i: nat)
    requires DbValid(db) && HonestRun(db, steps)
    requires operation in db.deliveries && db.deliveries[operation].op.recipientInvalid
    ensures operation in Run(db, steps).deliveries
    ensures i < |Run(db, steps).deliveries[operation].attempts| ==>
              !Run(db, steps).deliveries[operation].attempts[i].evidence.state.Pending?
  {
    hide DbValid, HonestRun, Run;
    RunsOnlyEvolve(db, steps);
    assert Evolves(db.deliveries[operation], Run(db, steps).deliveries[operation]);
    ValidRows(Run(db, steps), operation);
  }

  // -------------------------------------------------------------------- fallback chains

  /** Attempts of one routing revision form one chain of fallbacks down the route. */
  lemma {:induction false} ChainDescends(d: Delivery, i: nat, j: nat)
    requires RowsValid(d) && i < j < |d.attempts|
    requires d.attempts[i].route.revision == d.attempts[j].route.revision
    ensures d.attempts[j].route.reason.Fallback?
    ensures d.attempts[i].route.position < d.attempts[j].route.position
    ensures d.attempts[i].route.intent == d.attempts[j].route.intent
    ensures d.attempts[i].evidence.state.Failed? || d.attempts[i].evidence.state.Delivered?
    decreases j
  {
    RevisionsAscend(d, i, j - 1);
    assert Linked(d.attempts, j);
    if i < j - 1 {
      ChainDescends(d, i, j - 1);
    }
  }

  lemma {:induction false} RevisionsAscend(d: Delivery, i: nat, j: nat)
    requires RowsValid(d) && i <= j < |d.attempts|
    ensures d.attempts[i].route.revision <= d.attempts[j].route.revision
    decreases j
  {
    if i < j {
      RevisionsAscend(d, i, j - 1);
      assert Linked(d.attempts, j);
    }
  }

  function AttemptsOf(d: Delivery, revision: nat): set<nat> {
    set i: nat | i < |d.attempts| && d.attempts[i].route.revision == revision
  }

  function FallbacksOf(d: Delivery, revision: nat): set<nat> {
    set i: nat | i < |d.attempts| && d.attempts[i].route.revision == revision && d.attempts[i].route.reason.Fallback?
  }

  /** A routing revision uses each route step at most once, so its attempts cannot outnumber the steps, and its
      fallbacks are fewer still. */
  lemma RevisionIsBounded(d: Delivery, revision: nat)
    requires RowsValid(d)
    ensures forall i, j | i in AttemptsOf(d, revision) && j in AttemptsOf(d, revision)
                          && d.attempts[i].route.position == d.attempts[j].route.position :: i == j
    ensures |AttemptsOf(d, revision)| <= |d.saved.steps|
    ensures |FallbacksOf(d, revision)| < |d.saved.steps|
  {
    var all := AttemptsOf(d, revision);
    var position := (i: nat) => if i < |d.attempts| then d.attempts[i].route.position else 0;
    forall i, j | i in all && j in all && position(i) == position(j) ensures i == j {
      if i < j {
        ChainDescends(d, i, j);
      }
      if j < i {
        ChainDescends(d, j, i);
      }
    }
    forall i | i in all ensures position(i) in Below(|d.saved.steps|) {
      assert AttemptValid(d.saved, d.attempts[i]);
    }
    InjectionBounds(all, Below(|d.saved.steps|), position);
    if all != {} {
      FirstIsNoFallback(d, revision);
    } else {
      assert FallbacksOf(d, revision) <= all;
    }
  }

  lemma FirstIsNoFallback(d: Delivery, revision: nat)
    requires RowsValid(d) && AttemptsOf(d, revision) != {}
    ensures |FallbacksOf(d, revision)| < |AttemptsOf(d, revision)|
  {
    var all := AttemptsOf(d, revision);
    var some :| some in all;
    var i := Least(all, some);
    assert Linked(d.attempts, i);
    if i > 0 {
      assert i - 1 !in all;
    }
    SubsetCount(FallbacksOf(d, revision), all - {i});
  }

  /** Only confirmed failure resends automatically: recording any other evidence creates no attempt, and what a
      failure creates is a fallback of that very attempt, further down the route, under the same intent. */
  lemma OnlyFailureFallsBack(d: Delivery, i: nat, outcome: Outcome, eligible: bool, next: Option<Availability>, time: Time)
    requires RowsValid(d) && i < |d.attempts| && NextAfter(d, i, next)
    ensures var e := MergeOutcome(d, i, outcome, eligible, next, time);
            && |d.attempts| <= |e.attempts| <= |d.attempts| + 1
            && (|e.attempts| == |d.attempts| + 1 ==>
                  && outcome.state.Failed? && !d.attempts[i].evidence.state.Failed?
                  && !d.attempts[i].evidence.state.Delivered? && !d.attempts[i].evidence.state.Suppressed?
                  && i == |d.attempts| - 1 && eligible
                  && var child := e.attempts[|d.attempts|];
                     && child.route.reason.Fallback?
                     && child.route.intent == d.attempts[i].route.intent
                     && child.route.revision == d.attempts[i].route.revision == d.op.revision
                     && child.route.position > d.attempts[i].route.position
                     && child.evidence.state.Pending?)
  {
  }

  /** Losing a worker never resends: recovery only turns overdue dispatches into uncertain ones. */
  lemma RecoveryResendsNothing(d: Delivery, time: Time)
    ensures var e := RecoverOverdue(d, time);
            && |e.attempts| == |d.attempts| && e.op == d.op
            && forall i | 0 <= i < |d.attempts| ::
                 if Overdue(d.attempts[i], time) then e.attempts[i].evidence.state.Uncertain?
                 else e.attempts[i] == d.attempts[i]
  {
  }

  // ------------------------------------------------------------ evidence and decisions

  /** An attempt that still awaits the authority has no evidence to lose, so no decision moves an attempt out of a
      state other than pending; of a suppressed one it can only change the diagnostic. */
  lemma DecidedRowsKeepEvidence(d: Delivery, i: nat, claim: Claim, decision: AuthorityDecision,
                                time: Time, eligible: bool, block: Block, j: nat)
    requires RowsValid(d) && i < |d.attempts| && d.attempts[i].route.position < |d.saved.steps| && j < |d.attempts|
    ensures var e := FinishAuthorization(d, i, claim, decision, time, eligible, block);
            && |e.attempts| == |d.attempts|
            && EvidenceLeft(d.attempts[j], e.attempts[j])
  {
    assert AttemptValid(d.saved, d.attempts[j]);
  }

  predicate EvidenceLeft(a: Attempt, b: Attempt) {
    && (!a.evidence.state.Pending? ==> b.evidence.state == a.evidence.state)
    && (!a.evidence.state.Pending? && !a.evidence.state.Suppressed? ==> b.evidence == a.evidence)
  }

  lemma ExpiryLeavesEvidence(db: Db, operation: Id, time: Time, id: AttemptId)
    requires Present(db, id)
    ensures var after := ExpireOperation(db, operation, time);
            Present(after, id) && EvidenceLeft(AttemptAt(db, id), AttemptAt(after, id))
  {
  }

  lemma LockedDecisionLeavesEvidence(db: Db, claim: Claim, decision: AuthorityDecision, time: Time, id: AttemptId)
    requires DbValid(db) && Addressable(db, claim.attempt) && Present(db, id)
    ensures var after := FinishLocked(db, claim, decision, time);
            Present(after, id) && EvidenceLeft(AttemptAt(db, id), AttemptAt(after, id))
  {
    hide DbValid, RowsValid, IntentEligible, FinishAuthorization;
    if claim.attempt.operation == id.operation {
      var d := db.deliveries[id.operation];
      ValidRows(db, id.operation);
      DecidedRowsKeepEvidence(d, claim.attempt.index, claim, decision, time,
        IntentEligible(db.env.world, d.saved, IntentAt(db, claim.attempt)), BlockOf(db, d.saved.project), id.index);
    }
  }

  /** Although a decision that cannot be used writes `suppressed` whatever the state is, in every reachable state every
      decision, of any claim, leaves alone what is known about every attempt that is dispatching or has evidence:
      delivered, failed and accepted absorb it. */
  lemma DecisionsLeaveEvidence(db: Db, claim: Claim, decision: AuthorityDecision, expiryTime: Time, time: Time, id: AttemptId)
    requires Reachable(db) && Present(db, id)
    ensures var after := FinishAttempt(db, claim, decision, expiryTime, time);
            Present(after, id) && EvidenceLeft(AttemptAt(db, id), AttemptAt(after, id))
  {
    hide DbValid, DbEvolves, Reachable, RowsValid, FinishLocked, ExpireOperation;
    RoutingHolds(db, id.operation);
    var expired := ExpireOperation(db, claim.attempt.operation, expiryTime);
    ExpireValid(db, claim.attempt.operation, expiryTime);
    ExpiryLeavesEvidence(db, claim.attempt.operation, expiryTime, id);
    if Addressable(expired, claim.attempt) {
      LockedDecisionLeavesEvidence(expired, claim, decision, time, id);
    }
  }

  /** A commitment is settled, so what is known about it only becomes stronger: an attempt that failed stays failed
      or turns out delivered, and a delivered one stays delivered. */
  lemma EvidenceOnlyStrengthens(db: Db, steps: seq<Step>, id: AttemptId)
    requires DbValid(db) && HonestRun(db, steps) && Known(db, id)
    ensures Known(Run(db, steps), id)
    ensures Rank(AttemptAt(db, id).evidence.state) <= Rank(AttemptAt(Run(db, steps), id).evidence.state)
    ensures AttemptAt(db, id).evidence.state.Failed? ==>
              AttemptAt(Run(db, steps), id).evidence.state.Failed? || AttemptAt(Run(db, steps), id).evidence.state.Delivered?
    ensures AttemptAt(db, id).evidence.state.Delivered? ==> AttemptAt(Run(db, steps), id).evidence.state.Delivered?
  {
    hide DbValid, HonestRun, Run;
    RunsOnlyEvolve(db, steps);
    ValidAddressable(db, id);
    AddressableLater(db, Run(db, steps), id);
  }
}
