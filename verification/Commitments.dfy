/** At most one commitment and one provider call per attempt, and never more commitments than the
    operation allows, under duplicate jobs, crashes, recovery and late evidence. */
module Commitments {
  import opened Prelude
  import opened Records
  import opened RoutingInvariant
  import opened SetFacts
  import opened Engine
  import opened EngineInvariant
  import opened EngineSteps
  import opened EngineWrites
  import opened EngineFrames
  import opened EngineRuns

  predicate DispatchedAt(trail: seq<Fact>, k: nat, id: AttemptId) {
    k < |trail| && trail[k].Dispatched? && trail[k].attempt == id
  }

  predicate CalledAt(trail: seq<Fact>, k: nat, id: AttemptId) {
    k < |trail| && trail[k].Called? && trail[k].attempt == id
  }

  ghost predicate EverDispatched(trail: seq<Fact>, id: AttemptId) {
    exists k: nat :: DispatchedAt(trail, k, id)
  }

  ghost predicate EverCalled(trail: seq<Fact>, id: AttemptId) {
    exists k: nat :: CalledAt(trail, k, id)
  }

  /** Commitments and the trail's dispatches are the same thing, with the same instant. */
  ghost predicate DispatchesMatch(db: Db) {
    && (forall k: nat, id: AttemptId | DispatchedAt(db.trail, k, id) :: CommittedOf(db, id) == Some(db.trail[k].time))
    && (forall id: AttemptId | CommittedOf(db, id).Some? :: EverDispatched(db.trail, id))
  }

  ghost predicate DispatchesDistinct(trail: seq<Fact>) {
    forall j: nat, k: nat, id: AttemptId | DispatchedAt(trail, j, id) && DispatchedAt(trail, k, id) :: j == k
  }

  ghost predicate CallsDistinct(trail: seq<Fact>) {
    forall j: nat, k: nat, id: AttemptId | CalledAt(trail, j, id) && CalledAt(trail, k, id) :: j == k
  }

  /** A provider call follows the commitment of its attempt. */
  ghost predicate CallsFollow(trail: seq<Fact>) {
    forall k: nat, id: AttemptId | CalledAt(trail, k, id) :: EverDispatched(trail[..k], id)
  }

  /** A reservation is a commitment whose call has not happened. */
  ghost predicate ReservationsOpen(db: Db) {
    forall id | id in db.reserved :: EverDispatched(db.trail, id) && !EverCalled(db.trail, id)
  }

  ghost predicate CommitsRecorded(db: Db) {
    && DispatchesMatch(db)
    && DispatchesDistinct(db.trail)
    && CallsDistinct(db.trail)
    && CallsFollow(db.trail)
    && ReservationsOpen(db)
  }

  predicate OtherFact(f: Fact) { !f.Dispatched? && !f.Called? }

  lemma TrailGrows(trail: seq<Fact>, fact: Fact)
    ensures var t := trail + [fact];
            && (forall k: nat, id :: DispatchedAt(t, k, id) <==>
                  DispatchedAt(trail, k, id) || (k == |trail| && fact.Dispatched? && fact.attempt == id))
            && (forall k: nat, id :: CalledAt(t, k, id) <==>
                  CalledAt(trail, k, id) || (k == |trail| && fact.Called? && fact.attempt == id))
            && (forall id :: EverDispatched(t, id) <==> EverDispatched(trail, id) || (fact.Dispatched? && fact.attempt == id))
            && (forall id :: EverCalled(t, id) <==> EverCalled(trail, id) || (fact.Called? && fact.attempt == id))
            && (forall k: nat | k <= |trail| :: t[..k] == trail[..k])
            && t[..|trail|] == trail
  {
    var t := trail + [fact];
    assert t[|trail|] == fact;
    forall id
      ensures EverDispatched(t, id) <==> EverDispatched(trail, id) || (fact.Dispatched? && fact.attempt == id)
      ensures EverCalled(t, id) <==> EverCalled(trail, id) || (fact.Called? && fact.attempt == id)
    {
      if EverDispatched(trail, id) {
        var k: nat :| DispatchedAt(trail, k, id);
        assert DispatchedAt(t, k, id);
      }
      if EverDispatched(t, id) {
        var k: nat :| DispatchedAt(t, k, id);
        assert k < |trail| ==> DispatchedAt(trail, k, id);
      }
      if EverCalled(t, id) {
        var k: nat :| CalledAt(t, k, id);
        assert k < |trail| ==> CalledAt(trail, k, id);
      }
      if fact.Dispatched? && fact.attempt == id {
        assert DispatchedAt(t, |trail|, id);
      }
      if EverCalled(trail, id) {
        var k: nat :| CalledAt(trail, k, id);
        assert CalledAt(t, k, id);
      }
      if fact.Called? && fact.attempt == id {
        assert CalledAt(t, |trail|, id);
      }
    }
  }

  lemma OtherFactKeeps(a: Db, b: Db, fact: Fact)
    requires CommitsRecorded(a) && OtherFact(fact)
    requires b.trail == a.trail + [fact] && b.reserved <= a.reserved && KeepsCommits(a, b)
    ensures CommitsRecorded(b)
  {
    TrailGrows(a.trail, fact);
  }

  lemma NoFactKeeps(a: Db, b: Db)
    requires CommitsRecorded(a)
    requires b.trail == a.trail && b.reserved <= a.reserved && KeepsCommits(a, b)
    ensures CommitsRecorded(b)
  {
  }

  lemma CommitRecorded(a: Db, b: Db, id: AttemptId, recipient: Id, time: Time)
    requires CommitsRecorded(a) && CommittedOf(a, id).None?
    requires b.trail == a.trail + [Dispatched(id, recipient, time)] && b.reserved == a.reserved + {id}
    requires CommittedOf(b, id) == Some(time)
    requires forall other: AttemptId | other != id :: CommittedOf(b, other) == CommittedOf(a, other)
    ensures CommitsRecorded(b)
  {
    TrailGrows(a.trail, Dispatched(id, recipient, time));
    assert !EverDispatched(a.trail, id);
    CalledWasDispatched(a.trail, id);
  }

  lemma CalledWasDispatched(trail: seq<Fact>, id: AttemptId)
    requires CallsFollow(trail)
    ensures EverCalled(trail, id) ==> EverDispatched(trail, id)
  {
    if EverCalled(trail, id) {
      var k: nat :| CalledAt(trail, k, id);
      var j: nat :| DispatchedAt(trail[..k], j, id);
      assert DispatchedAt(trail, j, id);
    }
  }

  lemma CallRecorded(a: Db, b: Db, id: AttemptId)
    requires CommitsRecorded(a) && id in a.reserved
    requires b.trail == a.trail + [Called(id)] && b.reserved == a.reserved - {id} && KeepsCommits(a, b)
    ensures CommitsRecorded(b)
  {
    TrailGrows(a.trail, Called(id));
  }

  lemma CommitsInductive()
    ensures Inductive(CommitsRecorded)
  {
    hide DbValid, Allowed, CommitsRecorded, Framed, Recorded, KeepsCommits, NewFacts, Commits;
    forall db: Db, w: Write | Allowed(db, w) && DbValid(db) && CommitsRecorded(db)
      ensures CommitsRecorded(Perform(db, w))
    {
      CommitsKept(db, w);
    }
  }

  lemma CommitsKept(db: Db, w: Write)
    requires DbValid(db) && Allowed(db, w) && CommitsRecorded(db)
    ensures CommitsRecorded(Perform(db, w))
  {
    hide DbValid, CommitsRecorded, KeepsCommits, KeepsAuth, KeepsEvidence, Perform, GateVerdictAt;
    WriteFramed(db, w);
    WriteRecords(db, w);
    var b := Perform(db, w);
    if Commits(db, w) {
      CommitWrites(db, w);
      CommitRecorded(db, b, w.attempt, db.deliveries[w.attempt.operation].saved.recipient, w.time);
    } else if w.Invoking? && w.attempt in db.reserved {
      CallRecorded(db, b, w.attempt);
    } else {
      var facts := NewFacts(db, w);
      if facts == [] {
        NoFactKeeps(db, b);
      } else {
        assert facts == [facts[0]];
        OtherFactKeeps(db, b, facts[0]);
      }
    }
  }

  // ---------------------------------------------------------------- what follows

  lemma CommitsHold(db: Db)
    requires Reachable(db)
    ensures DbValid(db) && CommitsRecorded(db)
  {
    hide DbValid, Inductive, Reachable;
    CommitsInductive();
    ReachableHas(db, CommitsRecorded);
  }

  function CallsOf(trail: seq<Fact>, operation: Id): set<nat> {
    set k: nat | k < |trail| && trail[k].Called? && trail[k].attempt.operation == operation
  }

  /** In every reachable state the provider was called at most once per attempt, only after its one commitment, and all calls of an
      operation together stay within its allowance. */
  lemma AtMostOneCall(db: Db, operation: Id)
    requires Reachable(db) && operation in db.deliveries
    ensures forall j: nat, k: nat, id | CalledAt(db.trail, j, id) && CalledAt(db.trail, k, id) :: j == k
    ensures forall k: nat, id | CalledAt(db.trail, k, id) ::
              exists j: nat :: j < k && DispatchedAt(db.trail, j, id) && forall i: nat | DispatchedAt(db.trail, i, id) :: i == j
    ensures |CallsOf(db.trail, operation)| <= SendCount(db.deliveries[operation]) <= db.deliveries[operation].saved.maxSends
  {
    hide DbValid, RowsValid, Reachable;
    CommitsHold(db);
    forall k: nat, id | CalledAt(db.trail, k, id)
      ensures exists j: nat :: j < k && DispatchedAt(db.trail, j, id) && forall i: nat | DispatchedAt(db.trail, i, id) :: i == j
    {
      var j: nat :| DispatchedAt(db.trail[..k], j, id);
      assert j < k && DispatchedAt(db.trail, j, id);
    }
    var d := db.deliveries[operation];
    var indexOf := (k: nat) => if k < |db.trail| && db.trail[k].Called? then db.trail[k].attempt.index else 0;
    forall k | k in CallsOf(db.trail, operation) ensures indexOf(k) in CommittedAttempts(d.attempts) {
      assert CalledAt(db.trail, k, db.trail[k].attempt);
      var j: nat :| DispatchedAt(db.trail, j, db.trail[k].attempt);
    }
    forall j, k | j in CallsOf(db.trail, operation) && k in CallsOf(db.trail, operation) && indexOf(j) == indexOf(k)
      ensures j == k
    {
      assert CalledAt(db.trail, j, db.trail[j].attempt) && CalledAt(db.trail, k, db.trail[j].attempt);
    }
    InjectionBounds(CallsOf(db.trail, operation), CommittedAttempts(d.attempts), indexOf);
    WithinAllowance(db, operation);
  }

  lemma WithinAllowance(db: Db, operation: Id)
    requires DbValid(db) && operation in db.deliveries
    ensures SendCount(db.deliveries[operation]) <= db.deliveries[operation].saved.maxSends
  {
    ValidRows(db, operation);
  }

  /** An attempt that left `pending` never returns to it, a suppressed one stays suppressed, and a commitment
      is never made again or withdrawn. */
  lemma NeverPendingAgain(db: Db, steps: seq<Step>, id: AttemptId)
    requires DbValid(db) && HonestRun(db, steps) && Present(db, id)
    ensures var after := Run(db, steps);
            && Present(after, id)
            && (!AttemptAt(db, id).evidence.state.Pending? ==> !AttemptAt(after, id).evidence.state.Pending?)
            && (AttemptAt(db, id).evidence.state.Suppressed? ==> AttemptAt(after, id).evidence.state.Suppressed?)
            && (Known(db, id) ==> AttemptAt(after, id).committedAt == AttemptAt(db, id).committedAt)
  {
    hide DbValid, HonestRun, Run;
    RunsOnlyEvolve(db, steps);
    ValidAddressable(db, id);
    AddressableLater(db, Run(db, steps), id);
  }
}
