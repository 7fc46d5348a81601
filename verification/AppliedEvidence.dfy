/** Evidence is applied exactly as it is recorded: each inbox row at most once, and the state of a committed
    attempt is always the strongest state that was ever applied to it. */
module AppliedEvidence {
  import opened Prelude
  import opened Records
  import opened Decision
  import opened Routing
  import opened RoutingInvariant
  import opened RowFrames
  import opened Authority
  import opened Quotas
  import opened Eligibility
  import opened Engine
  import opened EngineInvariant
  import opened EngineSteps
  import opened InboxSteps
  import opened EngineWrites
  import opened EngineFrames
  import opened EngineRuns

  // ---------------------------------------------------------------- states that were applied

  function StatesOf(observations: seq<Observation>, id: AttemptId): seq<AttemptState> {
    if observations == [] then []
    else
      var n := |observations| - 1;
      var rest := StatesOf(observations[..n], id);
      if observations[n].attempt == id then rest + [observations[n].state] else rest
  }

  lemma {:induction false} StatesOfConcat(a: seq<Observation>, b: seq<Observation>, id: AttemptId)
    ensures StatesOf(a + b, id) == StatesOf(a, id) + StatesOf(b, id)
  {
    if b == [] {
      assert a + b == a;
    } else {
      var n := |b| - 1;
      StatesOfConcat(a, b[..n], id);
      assert (a + b)[..|a + b| - 1] == a + b[..n];
    }
  }

  lemma {:induction false} StatesOfMembers(observations: seq<Observation>, id: AttemptId, s: AttemptState)
    ensures s in StatesOf(observations, id) <==>
              exists i :: 0 <= i < |observations| && observations[i].attempt == id && observations[i].state == s
    ensures forall k | 0 <= k < |StatesOf(observations, id)| :: Evidential(StatesOf(observations, id)[k])
  {
    if observations != [] {
      var n := |observations| - 1;
      StatesOfMembers(observations[..n], id, s);
      assert observations == observations[..n] + [observations[n]];
    }
  }

  /** A committed attempt's state is its evidence folded from `dispatching`, oldest first. */
  ghost predicate StatesFollow(db: Db) {
    forall id: AttemptId | Known(db, id) ::
      AttemptAt(db, id).evidence.state == Fold(Dispatching, StatesOf(db.observations, id))
  }

  /** Nothing pending has been observed yet. */
  ghost predicate ObservedStarted(db: Db) {
    forall i | 0 <= i < |db.observations| ::
      Present(db, db.observations[i].attempt) && !AttemptAt(db, db.observations[i].attempt).evidence.state.Pending?
  }

  // --------------------------------------------------------------- rows that were applied

  ghost predicate KeysUnique(inbox: seq<InboxRow>) {
    forall j, k | 0 <= j < |inbox| && 0 <= k < |inbox| && !inbox[j].dropped && !inbox[k].dropped
                   && inbox[j].instance == inbox[k].instance && inbox[j].key == inbox[k].key ::
      j == k
  }

  predicate AppliedAt(observations: seq<Observation>, i: nat, k: nat) {
    i < |observations| && observations[i].source == Callback(k)
  }

  function NamedBy(row: InboxRow): Alias { Alias(row.instance, row.reference) }

  /** The row reached the attempt through the alias that it names, and matches its saved revision. */
  predicate Matched(db: Db, row: InboxRow, id: AttemptId) {
    && NamedBy(row) in db.correlations && db.correlations[NamedBy(row)] == id
    && Addressable(db, id)
    && RevisionMatches(row.revisions, StepAt(db, id).instanceRevision)
  }

  /** A row is processed exactly when it has been applied, once, to the attempt it names. */
  ghost predicate RowsApplied(db: Db) {
    && (forall i: nat, k: nat | AppliedAt(db.observations, i, k) ::
          && k < |db.inbox| && db.inbox[k].processed && !db.inbox[k].dropped
          && db.observations[i].state == db.inbox[k].status
          && Matched(db, db.inbox[k], db.observations[i].attempt))
    && (forall i: nat, j: nat, k: nat | AppliedAt(db.observations, i, k) && AppliedAt(db.observations, j, k) :: i == j)
    && (forall k | 0 <= k < |db.inbox| && db.inbox[k].processed :: exists i: nat :: AppliedAt(db.observations, i, k))
  }

  ghost predicate EvidenceKept(db: Db) {
    StatesFollow(db) && ObservedStarted(db) && KeysUnique(db.inbox) && RowsApplied(db)
  }

  // ------------------------------------------------------------- what a write observes

  ghost function NewObservations(db: Db, w: Write): seq<Observation>
    requires Allowed(db, w)
  {
    match w
    case Reporting(id, outcome, _) => [Observation(id, outcome.state, Response)]
    case Applying(alias, k, _) => [Observation(db.correlations[alias], db.inbox[k].status, Callback(k))]
    case Gating(id, jobRevision, time, mergeTime) =>
      var verdict := GateVerdictAt(db, id, jobRevision, time, mergeTime);
      if verdict.Recover? then [Observation(id, Uncertain, RecoveryCheck)]
      else if verdict.FailLocally? then [Observation(id, Failed, LocalCheck)] else []
    case Recovering(operation, time) => RecoveryObservations(operation, db.deliveries[operation].attempts, time)
    case _ => []
  }

  predicate OfOperation(w: Write) {
    w.Expiring? || w.Closing? || w.Admitting? || w.Activating? || w.Starting? || w.Sending?
  }

  /** Clients' writes neither observe nor touch the inbox. */
  lemma OperationTables(db: Db, w: Write)
    requires Allowed(db, w) && OfOperation(w)
    ensures Perform(db, w).observations == db.observations && Perform(db, w).inbox == db.inbox
  {
    hide Expire, Terminate, Activate, ScheduleExplicit, Admit, RequestSendLocked, ChooseTarget, RequireAccess, CaptureAuthority,
      RegisterScheduled, SendExplicit, Count;
    match w
    case Admitting(operation, input, time) => AdmissionRecords(db, operation, input, time);
    case Sending(operation, principal, action, time) => RequestDecidedFirst(db, operation, principal, action, time);
    case _ =>
  }

  lemma AuthorityTables(db: Db, w: Write)
    requires Allowed(db, w) && (w.Claiming? || w.Finishing?)
    ensures Perform(db, w).observations == db.observations && Perform(db, w).inbox == db.inbox
  {
    hide ClaimAuthorization, ClaimVerdictOf, FinishAuthorization, IntentEligible, RegisterScheduled, RecordDenial;
  }

  lemma GateTables(db: Db, w: Write)
    requires Allowed(db, w) && w.Gating?
    ensures Perform(db, w).observations == db.observations + NewObservations(db, w) && Perform(db, w).inbox == db.inbox
  {
    hide Gate, GateVerdictOf, ViewGate, RegisterScheduled, Count, ExtendAdmission, SendLimits;
  }

  lemma MergedTables(db: Db, id: AttemptId, outcome: Outcome, source: Source, time: Time)
    requires Addressable(db, id)
    ensures Merge(db, id, outcome, source, time).observations == db.observations + [Observation(id, outcome.state, source)]
    ensures Merge(db, id, outcome, source, time).inbox == db.inbox
  {
    hide MergeOutcome, AvailableProviders, NextProvider, IntentEligible, RegisterScheduled, Restrict;
  }

  lemma EvidenceTables(db: Db, w: Write)
    requires DbValid(db) && Allowed(db, w) && (w.Reporting? || w.Applying?)
    ensures Perform(db, w).observations == db.observations + NewObservations(db, w)
    ensures Perform(db, w).inbox == if w.Applying? then db.inbox[w.row := db.inbox[w.row].(processed := true)] else db.inbox
  {
    hide DbValid, Merge;
    match w
    case Reporting(id, outcome, time) =>
      KnownSettled(db, id);
      MergedTables(db, id, outcome, Response, time);
    case Applying(alias, k, time) => MergedTables(db, db.correlations[alias], CallbackOutcome(db.inbox[k]), Callback(k), time);
  }

  /** The tables of evidence after a write. */
  lemma WriteObserves(db: Db, w: Write)
    requires DbValid(db) && Allowed(db, w)
    ensures Perform(db, w).observations == db.observations + NewObservations(db, w)
    ensures Perform(db, w).inbox ==
              if w.Inserting? then InsertRow(db, w.instance, w.event).inbox
              else if w.Applying? then db.inbox[w.row := db.inbox[w.row].(processed := true)]
              else if w.Forgetting? then ForgetCallbacks(db, w.places, w.time).inbox
              else db.inbox
  {
    hide DbValid, Merge, GateLocked, ClaimLocked, FinishLocked, RecoverOverdue, Admit, InitialSend, RequestSendLocked, ExpireOperation,
      CloseLocked, ActivateLocked, RegisterScheduled, GateVerdictAt, Administer, RecoveryObservations;
    match w
    case Claiming(_, _, _) => AuthorityTables(db, w);
    case Finishing(_, _, _) => AuthorityTables(db, w);
    case Gating(_, _, _, _) => GateTables(db, w);
    case Reporting(_, _, _) => EvidenceTables(db, w);
    case Applying(_, _, _) => EvidenceTables(db, w);
    case _ => if OfOperation(w) { OperationTables(db, w); }
  }

  // -------------------------------------------------------------- states are kept

  /** Recovery observes overdue attempts of its operation only. */
  lemma {:induction false} RecoveredAttempts(operation: Id, attempts: seq<Attempt>, time: Time)
    ensures forall i | 0 <= i < |RecoveryObservations(operation, attempts, time)| ::
              var o := RecoveryObservations(operation, attempts, time)[i];
              && o.attempt.operation == operation && o.attempt.index < |attempts|
              && Overdue(attempts[o.attempt.index], time) && o.source == RecoveryCheck
  {
    hide StatesOf;
    if attempts != [] {
      RecoveredAttempts(operation, attempts[..|attempts|-1], time);
    }
  }

  lemma {:induction false} RecoveredStates(operation: Id, attempts: seq<Attempt>, time: Time, id: AttemptId)
    ensures StatesOf(RecoveryObservations(operation, attempts, time), id) ==
              if id.operation == operation && id.index < |attempts| && Overdue(attempts[id.index], time) then [Uncertain] else []
    ensures forall i | 0 <= i < |RecoveryObservations(operation, attempts, time)| ::
              var o := RecoveryObservations(operation, attempts, time)[i];
              && o.attempt.operation == operation && o.attempt.index < |attempts|
              && Overdue(attempts[o.attempt.index], time) && o.source == RecoveryCheck
  {
    RecoveredAttempts(operation, attempts, time);
    hide Overdue;
    if attempts != [] {
      var n := |attempts| - 1;
      RecoveredStates(operation, attempts[..n], time, id);
      if Overdue(attempts[n], time) {
        var last := Observation(AttemptId(operation, n), Uncertain, RecoveryCheck);
        StatesOfConcat(RecoveryObservations(operation, attempts[..n], time), [last], id);
        SingleState(last, id);
      }
    }
  }

  lemma SingleState(o: Observation, id: AttemptId)
    ensures StatesOf([o], id) == if o.attempt == id then [o.state] else []
  {
    assert [o][..0] == [];
    assert StatesOf([], id) == [];
  }

  lemma FoldOne(start: AttemptState, history: seq<AttemptState>, s: AttemptState)
    ensures Fold(start, history + [s]) == ResultingState(Fold(start, history), s)
  {
    assert (history + [s])[..|history|] == history;
  }

  lemma KnownInvoked(db: Db, id: AttemptId)
    requires DbValid(db) && Known(db, id)
    ensures Addressable(db, id) && Invoked(AttemptAt(db, id).evidence.state)
  {
    ValidAddressable(db, id);
  }

  /** How a write moves the state of a committed attempt that it observes. */
  lemma ObservedMoves(db: Db, w: Write, id: AttemptId)
    requires DbValid(db) && Allowed(db, w) && Known(db, id) && Subject(db, w) == Some(id)
    ensures Present(Perform(db, w), id)
    ensures |NewObservations(db, w)| <= 1
    ensures AttemptAt(Perform(db, w), id).evidence.state ==
              if NewObservations(db, w) == [] then AttemptAt(db, id).evidence.state
              else ResultingState(AttemptAt(db, id).evidence.state, NewObservations(db, w)[0].state)
    ensures NewObservations(db, w) != [] ==> NewObservations(db, w)[0].attempt == id
  {
    hide DbValid, RowsValid, Merge, Gate, GateVerdictOf, ApplyRow, ViewGate;
    KnownInvoked(db, id);
    match w
    case Reporting(_, outcome, time) => MergeFramed(db, id, outcome, Response, time);
    case Applying(alias, k, time) => ApplyFramed(db, id, k, time);
    case Gating(_, jobRevision, time, mergeTime) => GateMoves(db, w);
  }

  lemma GateMoves(db: Db, w: Write)
    requires DbValid(db) && Allowed(db, w) && w.Gating? && Known(db, w.attempt)
    ensures var verdict := GateVerdictAt(db, w.attempt, w.jobRevision, w.time, w.mergeTime);
            && !verdict.FailLocally? && !verdict.Commit?
            && Present(Perform(db, w), w.attempt)
            && (verdict.Recover? ==>
                  AttemptAt(db, w.attempt).evidence.state.Dispatching? && AttemptAt(Perform(db, w), w.attempt).evidence.state.Uncertain?)
            && (!verdict.Recover? ==>
                  AttemptAt(Perform(db, w), w.attempt).evidence.state == AttemptAt(db, w.attempt).evidence.state)
  {
    hide DbValid, RowsValid, Gate, ViewGate, Follows;
    var id := w.attempt;
    var d := db.deliveries[id.operation];
    ValidRows(db, id.operation);
    ValidAddressable(db, id);
    GateFrame(d, id.index, w.jobRevision, w.time, w.mergeTime, ViewGate(db, id, w.time, w.mergeTime));
  }

  lemma StatesFollowKept(db: Db, w: Write)
    requires DbValid(db) && Allowed(db, w) && StatesFollow(db) && ObservedStarted(db)
    ensures StatesFollow(Perform(db, w))
  {
    hide DbValid, Perform, Allowed, Commits, KeepsAuth, NewObservations;
    WriteObserves(db, w);
    WriteFramed(db, w);
    var b := Perform(db, w);
    forall id: AttemptId | Known(b, id)
      ensures AttemptAt(b, id).evidence.state == Fold(Dispatching, StatesOf(b.observations, id))
    {
      StatesOfConcat(db.observations, NewObservations(db, w), id);
      var past := StatesOf(db.observations, id);
      assert past + [] == past && StatesOf([], id) == [];
      if CommittedOf(db, id).None? {
        FirstCommitted(db, w, id);
      } else if w.Recovering? {
        RecoveringMoves(db, w, id);
      } else if Subject(db, w) == Some(id) {
        ObservedMoves(db, w, id);
        if NewObservations(db, w) != [] {
          SingleState(NewObservations(db, w)[0], id);
          assert NewObservations(db, w) == [NewObservations(db, w)[0]];
          FoldOne(Dispatching, StatesOf(db.observations, id), NewObservations(db, w)[0].state);
        }
      } else {
        Unobserved(db, w, id);
      }
    }
  }

  lemma FirstCommitted(db: Db, w: Write, id: AttemptId)
    requires DbValid(db) && Allowed(db, w) && ObservedStarted(db)
    requires CommittedOf(db, id).None? && Known(Perform(db, w), id) && Framed(db, w)
    ensures StatesOf(db.observations, id) == [] && NewObservations(db, w) == []
    ensures AttemptAt(Perform(db, w), id).evidence.state.Dispatching?
  {
    hide DbValid, Perform, Allowed, RowsValid, GateVerdictOf;
    assert CommittedOf(Perform(db, w), id).Some?;
    assert Commits(db, w);
    CommitWrites(db, w);
    CommittedState(db, w);
    StatesOfMembers(db.observations, id, Pending);
    Untouched(db.observations, id);
  }

  lemma {:induction false} Untouched(observations: seq<Observation>, id: AttemptId)
    requires forall i | 0 <= i < |observations| :: observations[i].attempt != id
    ensures StatesOf(observations, id) == []
  {
    if observations != [] {
      Untouched(observations[..|observations|-1], id);
    }
  }

  lemma CommittedState(db: Db, w: Write)
    requires DbValid(db) && Allowed(db, w) && Commits(db, w)
    ensures w.Gating? && Present(db, w.attempt) && Present(Perform(db, w), w.attempt)
    ensures AttemptAt(db, w.attempt).evidence.state.Pending?
    ensures AttemptAt(Perform(db, w), w.attempt).evidence.state.Dispatching?
    ensures NewObservations(db, w) == []
  {
    hide DbValid, RowsValid, Gate, ViewGate;
    var d := db.deliveries[w.attempt.operation];
    ValidRows(db, w.attempt.operation);
    GateFrame(d, w.attempt.index, w.jobRevision, w.time, w.mergeTime, ViewGate(db, w.attempt, w.time, w.mergeTime));
  }

  lemma RecoveringMoves(db: Db, w: Write, id: AttemptId)
    requires DbValid(db) && Allowed(db, w) && w.Recovering? && Known(db, id) && StatesFollow(db)
    ensures Present(Perform(db, w), id)
    ensures AttemptAt(Perform(db, w), id).evidence.state ==
              Fold(Dispatching, StatesOf(db.observations, id) + StatesOf(NewObservations(db, w), id))
  {
    hide DbValid, RowsValid;
    var d := db.deliveries[w.operation];
    ValidRows(db, w.operation);
    RecoverFrame(d, w.time);
    RecoveredStates(w.operation, d.attempts, w.time, id);
    FoldOne(Dispatching, StatesOf(db.observations, id), Uncertain);
    assert StatesOf(db.observations, id) + [] == StatesOf(db.observations, id);
  }

  lemma Unobserved(db: Db, w: Write, id: AttemptId)
    requires DbValid(db) && Allowed(db, w) && Framed(db, w) && !w.Recovering?
    requires Known(db, id) && Subject(db, w) != Some(id)
    ensures StatesOf(NewObservations(db, w), id) == []
    ensures Present(Perform(db, w), id)
    ensures AttemptAt(Perform(db, w), id).evidence.state == AttemptAt(db, id).evidence.state
  {
    hide DbValid, Allowed, Perform, StatesOf, NewObservations, KeepsCommits, KeepsAuth, KeepsEvidence, Commits, Subject;
    UnobservedHistory(db, w, id);
    EvidenceStays(db, Perform(db, w), Subject(db, w), id);
  }

  lemma EvidenceStays(a: Db, b: Db, but: Option<AttemptId>, id: AttemptId)
    requires KeepsEvidence(a, b, but) && but != Some(id) && Known(a, id)
    ensures Present(b, id) && AttemptAt(b, id).evidence.state == AttemptAt(a, id).evidence.state
  {
    assert SameEvidence(a.deliveries[id.operation], b.deliveries[id.operation],
      if but.Some? && but.value.operation == id.operation then Some(but.value.index) else None);
  }

  /** A write observes its subject only. */
  lemma UnobservedHistory(db: Db, w: Write, id: AttemptId)
    requires Allowed(db, w) && !w.Recovering? && Subject(db, w) != Some(id)
    ensures StatesOf(NewObservations(db, w), id) == []
  {
    hide GateVerdictAt;
    if NewObservations(db, w) != [] {
      SingleState(NewObservations(db, w)[0], id);
      assert NewObservations(db, w) == [NewObservations(db, w)[0]];
    }
  }

  // ------------------------------------------------------------ observations are kept

  lemma ObservedLater(a: Db, b: Db, i: nat)
    requires DbValid(a) && DbEvolves(a, b) && ObservedStarted(a) && i < |a.observations|
    ensures Present(b, a.observations[i].attempt) && !AttemptAt(b, a.observations[i].attempt).evidence.state.Pending?
  {
    hide DbValid;
    ValidAddressable(a, a.observations[i].attempt);
    AddressableLater(a, b, a.observations[i].attempt);
  }

  lemma StartedLater(a: Db, b: Db, id: AttemptId)
    requires DbValid(a) && DbEvolves(a, b) && Present(a, id) && !AttemptAt(a, id).evidence.state.Pending?
    ensures Present(b, id) && !AttemptAt(b, id).evidence.state.Pending?
  {
    hide DbValid;
    ValidAddressable(a, id);
    AddressableLater(a, b, id);
  }

  /** Whatever a write observes has started, or starts with that observation. */
  lemma NewlyObserved(db: Db, w: Write, i: nat)
    requires DbValid(db) && Allowed(db, w) && i < |NewObservations(db, w)|
    ensures var id := NewObservations(db, w)[i].attempt;
            Present(Perform(db, w), id) && !AttemptAt(Perform(db, w), id).evidence.state.Pending?
  {
    hide DbValid, DbEvolves, Perform, GateVerdictAt;
    WriteKeeps(db, w);
    var id := NewObservations(db, w)[i].attempt;
    match w
    case Recovering(operation, time) =>
      RecoveredStates(operation, db.deliveries[operation].attempts, time, id);
      StartedLater(db, Perform(db, w), id);
    case Gating(_, jobRevision, time, mergeTime) => GateObserves(db, w);
    case Applying(alias, k, _) =>
      RowKnown(db, alias, k);
      KnownInvoked(db, id);
      StartedLater(db, Perform(db, w), id);
    case Reporting(_, _, _) =>
      KnownInvoked(db, id);
      StartedLater(db, Perform(db, w), id);
  }

  lemma GateObserves(db: Db, w: Write)
    requires DbValid(db) && Allowed(db, w) && w.Gating? && NewObservations(db, w) != []
    ensures Present(Perform(db, w), w.attempt) && !AttemptAt(Perform(db, w), w.attempt).evidence.state.Pending?
  {
    hide DbValid, RowsValid, Gate, ViewGate;
    var d := db.deliveries[w.attempt.operation];
    ValidRows(db, w.attempt.operation);
    GateFrame(d, w.attempt.index, w.jobRevision, w.time, w.mergeTime, ViewGate(db, w.attempt, w.time, w.mergeTime));
  }

  lemma ObservedStartedKept(db: Db, w: Write)
    requires DbValid(db) && Allowed(db, w) && ObservedStarted(db)
    ensures ObservedStarted(Perform(db, w))
  {
    hide DbValid, DbEvolves, Perform, Allowed, NewObservations;
    WriteKeeps(db, w);
    WriteObserves(db, w);
    var b := Perform(db, w);
    forall i | 0 <= i < |b.observations|
      ensures Present(b, b.observations[i].attempt) && !AttemptAt(b, b.observations[i].attempt).evidence.state.Pending?
    {
      if i < |db.observations| {
        ObservedLater(db, b, i);
      } else {
        NewlyObserved(db, w, i - |db.observations|);
      }
    }
  }

  lemma KeysUniqueKept(db: Db, w: Write)
    requires DbValid(db) && Allowed(db, w) && KeysUnique(db.inbox)
    ensures KeysUnique(Perform(db, w).inbox)
  {
    hide DbValid, Perform;
    WriteObserves(db, w);
    var after := Perform(db, w).inbox;
    forall j, k | 0 <= j < |after| && 0 <= k < |after| && !after[j].dropped && !after[k].dropped
                  && after[j].instance == after[k].instance && after[j].key == after[k].key
      ensures j == k
    {
      if w.Inserting? && !Received(db, w.instance, w.event.key) {
        assert j < |db.inbox| ==> after[j] == db.inbox[j];
        assert k < |db.inbox| ==> after[k] == db.inbox[k];
      }
    }
  }

  lemma MatchedLater(a: Db, b: Db, row: InboxRow, id: AttemptId)
    requires DbEvolves(a, b) && Matched(a, row, id)
    ensures Matched(b, row, id)
  {
    AddressableLater(a, b, id);
  }

  lemma InboxLater(a: Db, b: Db, k: nat)
    requires DbEvolves(a, b) && k < |a.inbox|
    ensures k < |b.inbox| && RowFollows(a.inbox[k], b.inbox[k])
  {
    assert RowFollows(a.inbox[k], b.inbox[k]);
  }

  /** Only `Applying` adds a callback observation, of a row that was waiting for that attempt. */
  lemma CallbackObservations(db: Db, w: Write, i: nat, k: nat)
    requires DbValid(db) && Allowed(db, w) && AppliedAt(NewObservations(db, w), i, k)
    ensures w.Applying? && w.row == k && i == 0 && Waiting(db, w.alias, k)
    ensures NewObservations(db, w)[i].state == db.inbox[k].status
    ensures Matched(db, db.inbox[k], NewObservations(db, w)[i].attempt)
  {
    hide DbValid, GateVerdictAt;
    if w.Recovering? {
      RecoveredStates(w.operation, db.deliveries[w.operation].attempts, w.time, NewObservations(db, w)[i].attempt);
    }
  }

  lemma OldRowApplied(db: Db, w: Write, i: nat, k: nat)
    requires DbValid(db) && Allowed(db, w) && RowsApplied(db) && AppliedAt(db.observations, i, k)
    ensures k < |Perform(db, w).inbox| && Perform(db, w).inbox[k].processed && !Perform(db, w).inbox[k].dropped
    ensures db.observations[i].state == Perform(db, w).inbox[k].status
    ensures Matched(Perform(db, w), Perform(db, w).inbox[k], db.observations[i].attempt)
  {
    hide DbValid, DbEvolves, Perform, Allowed, Matched;
    WriteKeeps(db, w);
    var b := Perform(db, w);
    WriteObserves(db, w);
    NamedStays(db, db.inbox[k], db.observations[i].attempt);
    InboxLater(db, b, k);
    MatchedLater(db, b, db.inbox[k], db.observations[i].attempt);
    SameMatch(b, db.inbox[k], b.inbox[k], db.observations[i].attempt);
  }

  lemma NamedStays(db: Db, row: InboxRow, id: AttemptId)
    requires Matched(db, row, id)
    ensures !Droppable(db, row)
  {
  }

  lemma SameMatch(db: Db, row: InboxRow, later: InboxRow, id: AttemptId)
    requires Matched(db, row, id) && RowFollows(row, later)
    ensures Matched(db, later, id)
  {
  }

  lemma NewRowApplied(db: Db, w: Write, i: nat, k: nat)
    requires DbValid(db) && Allowed(db, w) && AppliedAt(NewObservations(db, w), i, k)
    ensures w.Applying? && i == 0 && k < |db.inbox| && k < |Perform(db, w).inbox|
    ensures Perform(db, w).inbox[k].processed && !db.inbox[k].processed && !Perform(db, w).inbox[k].dropped
    ensures NewObservations(db, w)[i].state == Perform(db, w).inbox[k].status
    ensures Matched(Perform(db, w), Perform(db, w).inbox[k], NewObservations(db, w)[i].attempt)
  {
    hide DbValid, DbEvolves, Perform, Matched, NewObservations;
    WriteKeeps(db, w);
    WriteObserves(db, w);
    CallbackObservations(db, w, i, k);
    var b := Perform(db, w);
    MatchedLater(db, b, db.inbox[k], NewObservations(db, w)[i].attempt);
    SameMatch(b, db.inbox[k], b.inbox[k], NewObservations(db, w)[i].attempt);
  }

  lemma SplitObservation(a: seq<Observation>, b: seq<Observation>, i: nat, k: nat)
    ensures AppliedAt(a + b, i, k) <==> AppliedAt(a, i, k) || (i >= |a| && AppliedAt(b, i - |a|, k))
  {
  }

  lemma RowsAppliedKept(db: Db, w: Write)
    requires DbValid(db) && Allowed(db, w) && RowsApplied(db)
    ensures RowsApplied(Perform(db, w))
  {
    hide DbValid, DbEvolves, Perform, Allowed, NewObservations, Matched, AppliedAt;
    WriteObserves(db, w);
    WriteObserves(db, w);
    var b := Perform(db, w);
    var n := |db.observations|;
    forall i: nat, k: nat | AppliedAt(b.observations, i, k)
      ensures i < |b.observations| && k < |b.inbox| && b.inbox[k].processed && !b.inbox[k].dropped
      ensures b.observations[i].state == b.inbox[k].status && Matched(b, b.inbox[k], b.observations[i].attempt)
    {
      SplitObservation(db.observations, NewObservations(db, w), i, k);
      ObservationBound(b.observations, i, k);
      if AppliedAt(db.observations, i, k) {
        ObservationBound(db.observations, i, k);
        OldRowApplied(db, w, i, k);
      } else {
        NewRowApplied(db, w, i - n, k);
      }
    }
    forall i: nat, j: nat, k: nat | AppliedAt(b.observations, i, k) && AppliedAt(b.observations, j, k) ensures i == j {
      AppliedOnce(db, w, i, j, k);
    }
    forall k | 0 <= k < |b.inbox| && b.inbox[k].processed ensures exists i: nat :: AppliedAt(b.observations, i, k) {
      ProcessedApplied(db, w, k);
    }
  }

  lemma ObservationBound(observations: seq<Observation>, i: nat, k: nat)
    requires AppliedAt(observations, i, k)
    ensures i < |observations| && observations[i].source == Callback(k)
  {
  }

  lemma AppliedOnce(db: Db, w: Write, i: nat, j: nat, k: nat)
    requires DbValid(db) && Allowed(db, w) && RowsApplied(db)
    requires AppliedAt(Perform(db, w).observations, i, k) && AppliedAt(Perform(db, w).observations, j, k)
    ensures i == j
  {
    hide DbValid, Perform, Allowed, NewObservations, Matched, AppliedAt;
    WriteObserves(db, w);
    var n := |db.observations|;
    SplitObservation(db.observations, NewObservations(db, w), i, k);
    SplitObservation(db.observations, NewObservations(db, w), j, k);
    if !AppliedAt(db.observations, i, k) {
      NewRowApplied(db, w, i - n, k);
    }
    if !AppliedAt(db.observations, j, k) {
      NewRowApplied(db, w, j - n, k);
    }
  }

  lemma ProcessedApplied(db: Db, w: Write, k: nat)
    requires DbValid(db) && Allowed(db, w) && RowsApplied(db)
    requires k < |Perform(db, w).inbox| && Perform(db, w).inbox[k].processed
    ensures exists i: nat :: AppliedAt(Perform(db, w).observations, i, k)
  {
    hide DbValid, Perform, Matched;
    WriteObserves(db, w);
    WriteObserves(db, w);
    var b := Perform(db, w);
    if k < |db.inbox| && db.inbox[k].processed {
      var i: nat :| AppliedAt(db.observations, i, k);
      assert AppliedAt(b.observations, i, k);
    } else {
      assert w.Applying? && w.row == k;
      assert AppliedAt(b.observations, |db.observations|, k);
    }
  }

  lemma EvidenceInductive()
    ensures Inductive(EvidenceKept)
  {
    hide DbValid, Allowed, Perform, StatesFollow, ObservedStarted, KeysUnique, RowsApplied;
    forall db: Db, w: Write | Allowed(db, w) && DbValid(db) && EvidenceKept(db)
      ensures EvidenceKept(Perform(db, w))
    {
      StatesFollowKept(db, w);
      ObservedStartedKept(db, w);
      KeysUniqueKept(db, w);
      RowsAppliedKept(db, w);
    }
  }

  lemma EvidenceHolds(db: Db)
    requires Reachable(db)
    ensures DbValid(db) && EvidenceKept(db)
  {
    hide DbValid, Inductive, Reachable;
    EvidenceInductive();
    ReachableHas(db, EvidenceKept);
  }
}
