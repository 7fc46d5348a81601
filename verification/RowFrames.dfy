/** What each statement leaves alone in the rows of an operation: commitments, authorizations and the
    evidence of committed attempts. */
module RowFrames {
  import opened Prelude
  import opened Records
  import opened Decision
  import opened Routing
  import opened RoutingInvariant
  import opened RoutingSteps

  function CommittedAt(d: Delivery, i: nat): Option<Time> {
    if i < |d.attempts| then d.attempts[i].committedAt else None
  }

  function AuthOf(d: Delivery, i: nat): Authorization {
    if i < |d.attempts| then d.attempts[i].auth
    else NewAttempt(d, 0, Initial, 0, 0).auth
  }

  /** Nothing becomes committed. */
  ghost predicate SameCommits(d: Delivery, e: Delivery) {
    forall i: nat :: CommittedAt(e, i) == CommittedAt(d, i)
  }

  /** Old attempts keep their authorization and new ones have none yet. */
  ghost predicate SameAuth(d: Delivery, e: Delivery) {
    forall i: nat :: AuthOf(e, i) == AuthOf(d, i)
  }

  /** Committed attempts, except possibly one, keep their state. */
  predicate SameEvidence(d: Delivery, e: Delivery, but: Option<nat>) {
    && |d.attempts| <= |e.attempts|
    && forall i | 0 <= i < |d.attempts| && d.attempts[i].committedAt.Some? && but != Some(i) ::
         e.attempts[i].evidence.state == d.attempts[i].evidence.state
  }

  ghost predicate Undisturbed(d: Delivery, e: Delivery) {
    SameCommits(d, e) && SameAuth(d, e) && SameEvidence(d, e, None)
  }

  lemma SuppressQuiet(d: Delivery, onlyFallback: bool)
    requires RowsValid(d)
    ensures Undisturbed(d, SuppressPending(d, onlyFallback))
  {
    CommittedNotPending(d);
  }

  lemma TerminateQuiet(d: Delivery, state: OperationState, time: Time)
    requires RowsValid(d)
    ensures Undisturbed(d, Terminate(d, state, time))
    ensures forall i | 0 <= i < |d.attempts| :: !Terminate(d, state, time).attempts[i].evidence.state.Pending?
  {
    SuppressQuiet(d, false);
    assert Terminate(d, state, time).attempts == SuppressPending(d, false).attempts;
    assert Terminate(d, state, time).saved == d.saved;
  }

  lemma ExpireQuiet(d: Delivery, time: Time)
    requires RowsValid(d)
    ensures Undisturbed(d, Expire(d, time)) && |Expire(d, time).attempts| == |d.attempts|
  {
    if Live(d.op) && time >= d.saved.expiresAt {
      TerminateQuiet(d, Expired, time);
    }
  }

  lemma ReplaceFrame(d: Delivery, i: nat, a: Attempt)
    requires i < |d.attempts| && a.committedAt == d.attempts[i].committedAt && a.auth == d.attempts[i].auth
    ensures var e := WithAttempt(d, i, a); SameCommits(d, e) && SameAuth(d, e) && SameEvidence(d, e, Some(i))
  {
  }

  /** Raising flags and suppressing pending rows touches no commitment, authorization or other state. */
  lemma ScopeFrame(r: Delivery, decision: Decision)
    ensures var e := ApplySuppression(StopAutomatic(r, decision.stopAutomatic, decision.recipientInvalid), decision.suppress);
            && SameCommits(r, e) && SameAuth(r, e)
            && e.saved == r.saved && |e.attempts| == |r.attempts|
            && forall i | 0 <= i < |r.attempts| && !r.attempts[i].evidence.state.Pending? ::
                 e.attempts[i].evidence.state == r.attempts[i].evidence.state
  {
  }

  lemma CommittedNotPending(d: Delivery)
    requires RowsValid(d)
    ensures forall i | 0 <= i < |d.attempts| && d.attempts[i].committedAt.Some? ::
              !d.attempts[i].evidence.state.Pending?
  {
    forall i | 0 <= i < |d.attempts| && d.attempts[i].committedAt.Some?
      ensures !d.attempts[i].evidence.state.Pending?
    {
      assert AttemptValid(d.saved, d.attempts[i]);
    }
  }

  lemma RecordFrame(d: Delivery, i: nat, outcome: Outcome)
    requires RowsValid(d) && i < |d.attempts|
    ensures var e := RecordEvidence(d, i, outcome);
            && SameCommits(d, e) && SameAuth(d, e) && SameEvidence(d, e, Some(i))
            && e.saved == d.saved && |e.attempts| == |d.attempts|
            && e.attempts[i].evidence.state == ResultingState(d.attempts[i].evidence.state, outcome.state)
  {
    hide RowsValid, ApplySuppression;
    CommittedNotPending(d);
    var a := d.attempts[i];
    var decision := DecideOutcome(d, i, outcome);
    var invocation := if outcome.notInvoked then NotInvoked else a.invocation;
    if !decision.applies {
      ReplaceFrame(d, i, a.(invocation := invocation));
    } else {
      var b := a.(invocation := invocation, evidence := decision.evidence);
      ReplaceFrame(d, i, b);
      ScopeFrame(WithAttempt(d, i, b), decision);
    }
  }

  /** A merge moves only the state of its own attempt, to the stronger of the two. */
  lemma MergeFrame(d: Delivery, i: nat, outcome: Outcome, eligible: bool, next: Option<Availability>, time: Time)
    requires RowsValid(d) && i < |d.attempts|
    ensures var e := MergeOutcome(d, i, outcome, eligible, next, time);
            && SameCommits(d, e) && SameAuth(d, e) && SameEvidence(d, e, Some(i))
            && |d.attempts| <= |e.attempts|
            && e.attempts[i].evidence.state == ResultingState(d.attempts[i].evidence.state, outcome.state)
  {
    RecordFrame(d, i, outcome);
    hide RecordEvidence, RowsValid, FallsBack;
    var r := RecordEvidence(d, i, outcome);
    var e := MergeOutcome(d, i, outcome, eligible, next, time);
    if FallsBack(d, i, outcome, eligible, next) {
      ScheduleQuiet(r, next.value.position, Fallback, d.attempts[i].route.intent, time);
      assert SameCommits(d, e) && SameAuth(d, e);
    }
  }

  lemma ScheduleQuiet(d: Delivery, position: nat, reason: Reason, intent: nat, time: Time)
    ensures Undisturbed(d, Schedule(d, position, reason, intent, time))
  {
  }

  lemma RecoverFrame(d: Delivery, time: Time)
    requires RowsValid(d)
    ensures var e := RecoverOverdue(d, time);
            && SameCommits(d, e) && SameAuth(d, e)
            && |e.attempts| == |d.attempts|
            && forall i | 0 <= i < |d.attempts| ::
                 e.attempts[i].evidence.state ==
                 if Overdue(d.attempts[i], time) then Uncertain else d.attempts[i].evidence.state
  {
  }

  lemma SendExplicitQuiet(d: Delivery, position: nat, reason: Reason, intent: Intent, time: Time)
    requires RowsValid(d)
    ensures Undisturbed(d, SendExplicit(d, position, reason, intent, time))
  {
    SuppressQuiet(d, false);
    var q := SuppressPending(d, false);
    var s := Supersede(d, time);
    assert s.attempts == q.attempts && s.saved == d.saved;
    var c := s.(intents := s.intents + [intent]);
    ScheduleQuiet(c, position, reason, |s.intents|, time);
    var e := SendExplicit(d, position, reason, intent, time);
    assert forall i: nat :: CommittedAt(q, i) == CommittedAt(c, i) && AuthOf(q, i) == AuthOf(c, i);
    assert SameCommits(d, e) && SameAuth(d, e);
  }

  lemma StartQuiet(d: Delivery, intent: Intent, time: Time)
    ensures Undisturbed(d, ScheduleExplicit(d, d.saved.initialPosition, Initial, intent, time))
  {
    var c := d.(intents := d.intents + [intent]);
    ScheduleQuiet(c, d.saved.initialPosition, Initial, |d.intents|, time);
    assert forall i: nat :: CommittedAt(d, i) == CommittedAt(c, i) && AuthOf(d, i) == AuthOf(c, i);
  }

  lemma ActivateQuiet(d: Delivery, code: Id, time: Time)
    ensures Undisturbed(d, Activate(d, code, time))
  {
    var e := Activate(d, code, time);
    assert e.attempts == d.attempts && e.saved == d.saved;
  }

  /** Only a commit verdict commits, and only the gate's own attempt. */
  lemma GateFrame(d: Delivery, i: nat, jobRevision: nat, time: Time, mergeTime: Time, view: GateView)
    requires RowsValid(d) && i < |d.attempts|
    ensures d.attempts[i].route.position < |d.saved.steps|
    ensures var e := Gate(d, i, jobRevision, time, mergeTime, view);
            var verdict := GateVerdictOf(d, i, jobRevision, time, view);
            && SameAuth(d, e) && SameEvidence(d, e, Some(i))
            && (!verdict.Commit? ==> SameCommits(d, e))
            && (verdict.Commit? ==>
                  && d.attempts[i].evidence.state.Pending? && d.attempts[i].committedAt.None?
                  && |e.attempts| == |d.attempts|
                  && e.attempts[i].committedAt == Some(time) && e.attempts[i].evidence.state.Dispatching?
                  && forall j | 0 <= j < |d.attempts| && j != i :: e.attempts[j] == d.attempts[j])
            && (verdict.FailLocally? ==> e.attempts[i].evidence.state.Failed?)
            && (verdict.Recover? ==> d.attempts[i].evidence.state.Dispatching? && e.attempts[i].evidence.state.Uncertain?)
            && (!verdict.Recover? && !verdict.Commit? && d.attempts[i].committedAt.Some? ==>
                  e.attempts[i].evidence.state == d.attempts[i].evidence.state)
  {
    assert AttemptValid(d.saved, d.attempts[i]);
    if GateVerdictOf(d, i, jobRevision, time, view).FailLocally? {
      hide MergeOutcome, StartProcessing, RowsValid, LocalFailure;
      GateFailureFrame(d, i, view, mergeTime);
    }
  }

  lemma GateFailureFrame(d: Delivery, i: nat, view: GateView, mergeTime: Time)
    requires RowsValid(d) && i < |d.attempts|
    ensures var e := MergeOutcome(StartProcessing(d), i, LocalFailure(view.target), view.eligible, view.next, mergeTime);
            && SameAuth(d, e) && SameEvidence(d, e, Some(i)) && SameCommits(d, e)
            && i < |e.attempts|
            && e.attempts[i].evidence.state == ResultingState(d.attempts[i].evidence.state, AttemptState.Failed)
  {
    hide MergeOutcome, RowsValid;
    var p := StartProcessing(d);
    ProcessingKeeps(d);
    assert p.attempts == d.attempts && p.saved == d.saved;
    MergeFrame(p, i, LocalFailure(view.target), view.eligible, view.next, mergeTime);
    assert forall j: nat :: CommittedAt(p, j) == CommittedAt(d, j) && AuthOf(p, j) == AuthOf(d, j);
  }

  lemma ClaimFrame(d: Delivery, i: nat, jobRevision: nat, time: Time, eligible: bool, block: Block)
    requires RowsValid(d) && i < |d.attempts|
    ensures d.attempts[i].route.position < |d.saved.steps|
    ensures var e := ClaimAuthorization(d, i, jobRevision, time, eligible, block);
            && SameCommits(d, e) && SameEvidence(d, e, None)
            && |e.attempts| == |d.attempts|
            && forall j | 0 <= j < |d.attempts| && j != i :: e.attempts[j] == d.attempts[j]
  {
    assert AttemptValid(d.saved, d.attempts[i]);
  }

  lemma FinishFrame(d: Delivery, i: nat, claim: Claim, decision: AuthorityDecision, time: Time, eligible: bool, block: Block)
    requires RowsValid(d) && i < |d.attempts|
    ensures d.attempts[i].route.position < |d.saved.steps|
    ensures var e := FinishAuthorization(d, i, claim, decision, time, eligible, block);
            && SameCommits(d, e) && SameEvidence(d, e, None)
            && |e.attempts| == |d.attempts|
            && forall j | 0 <= j < |d.attempts| && j != i :: e.attempts[j] == d.attempts[j]
  {
    assert AttemptValid(d.saved, d.attempts[i]);
  }
}
