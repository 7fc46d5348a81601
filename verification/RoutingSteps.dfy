/** Every transaction on the rows of one operation keeps `RowsValid` and only lets rows evolve. */
module RoutingSteps {
  import opened Prelude
  import opened Records
  import opened Decision
  import opened Routing
  import opened RoutingInvariant

  predicate NextAfter(d: Delivery, i: nat, next: Option<Availability>)
    requires i < |d.attempts|
  {
    next.Some? ==> d.attempts[i].route.position < next.value.position < |d.saved.steps|
  }

  // ---------------------------------------------------------------- outcomes.ts

  /** Every producer of an acceptance report also reports the message as accepted. */
  predicate OutcomeValid(outcome: Outcome) {
    outcome.state.Accepted? ==> outcome.acceptance.WasAccepted?
  }

  lemma MergedRow(d: Delivery, i: nat, outcome: Outcome)
    requires i < |d.attempts| && AttemptValid(d.saved, d.attempts[i]) && Settled(d.attempts[i])
    requires OutcomeValid(outcome)
    ensures var a := d.attempts[i];
            var decision := DecideOutcome(d, i, outcome);
            var invocation := if outcome.notInvoked then NotInvoked else a.invocation;
            var b := if decision.applies then a.(invocation := invocation, evidence := decision.evidence)
                     else a.(invocation := invocation);
            AttemptValid(d.saved, b) && Follows(a, b) && b.committedAt == a.committedAt
  {
  }

  lemma RecordEvidenceKeeps(d: Delivery, i: nat, outcome: Outcome)
    requires RowsValid(d) && i < |d.attempts| && Settled(d.attempts[i]) && OutcomeValid(outcome)
    ensures var e := RecordEvidence(d, i, outcome);
            && RowsValid(e) && Evolves(d, e)
            && |e.attempts| == |d.attempts|
            && e.op == d.op.(automaticStopped := e.op.automaticStopped, recipientInvalid := e.op.recipientInvalid)
  {
    var a := d.attempts[i];
    var decision := DecideOutcome(d, i, outcome);
    var invocation := if outcome.notInvoked then NotInvoked else a.invocation;
    MergedRow(d, i, outcome);
    if !decision.applies {
      ReplaceKeeps(d, i, a.(invocation := invocation));
    } else {
      var b := a.(invocation := invocation, evidence := decision.evidence);
      ReplaceKeeps(d, i, b);
      var r := WithAttempt(d, i, b);
      StoppedKeeps(r, decision);
      EvolvesTransitive(d, r, RecordEvidence(d, i, outcome));
    }
  }

  /** The flags and the suppression that a decision asks for belong together. */
  lemma StoppedKeeps(r: Delivery, decision: Decision)
    requires RowsValid(r) && r.attempts != []
    requires r.op.recipientInvalid ==> decision.recipientInvalid
    requires decision.recipientInvalid && !r.op.recipientInvalid ==> decision.suppress.SuppressAll?
    requires decision.recipientInvalid ==> decision.stopAutomatic
    requires decision.stopAutomatic && decision.suppress.SuppressNone? ==> r.op.recipientInvalid
    ensures var e := ApplySuppression(StopAutomatic(r, decision.stopAutomatic, decision.recipientInvalid), decision.suppress);
            && RowsValid(e) && Evolves(r, e)
            && |e.attempts| == |r.attempts|
            && e.op == r.op.(automaticStopped := e.op.automaticStopped, recipientInvalid := e.op.recipientInvalid)
  {
    match decision.suppress
    case SuppressNone =>
    case SuppressFallback =>
      if decision.stopAutomatic {
        SuppressedFlags(r, true, decision.recipientInvalid);
      } else {
        SuppressKeeps(r, true);
      }
    case SuppressAll =>
      if decision.stopAutomatic {
        SuppressedFlags(r, false, decision.recipientInvalid);
      } else {
        SuppressKeeps(r, false);
      }
  }

  /** Stopping automatic routing together with the matching suppression. */
  lemma SuppressedFlags(r: Delivery, onlyFallback: bool, recipientInvalid: bool)
    requires RowsValid(r) && r.attempts != []
    requires r.op.recipientInvalid ==> recipientInvalid
    requires onlyFallback && recipientInvalid ==> r.op.recipientInvalid
    ensures var e := SuppressPending(StopAutomatic(r, true, recipientInvalid), onlyFallback);
            RowsValid(e) && Evolves(r, e)
  {
    var s := SuppressPending(r, onlyFallback);
    SuppressKeeps(r, onlyFallback);
    var e := SuppressPending(StopAutomatic(r, true, recipientInvalid), onlyFallback);
    assert e.attempts == s.attempts;
    assert e.op == r.op.(automaticStopped := true, recipientInvalid := recipientInvalid);
    assert PendingIsCurrent(e) by {
      if recipientInvalid && onlyFallback {
        assert Quiet(s);
      }
    }
    SameRows(s, e);
  }

  /** Invariant clauses that read only the attempts. */
  lemma SameRows(s: Delivery, e: Delivery)
    requires RowsValid(s) && e.saved == s.saved && e.attempts == s.attempts && e.intents == s.intents
    ensures SavedValid(e.saved) && Chained(e) && IntentsValid(e) && SendCount(e) <= e.saved.maxSends
    ensures forall i | 0 <= i < |e.attempts| :: AttemptValid(e.saved, e.attempts[i])
  {
    forall j | 0 <= j < |e.attempts| ensures Linked(e.attempts, j) {
      assert Linked(s.attempts, j);
    }
  }

  lemma MergeKeeps(d: Delivery, i: nat, outcome: Outcome, eligible: bool, next: Option<Availability>, time: Time)
    requires RowsValid(d) && i < |d.attempts| && Settled(d.attempts[i])
    requires OutcomeValid(outcome) && NextAfter(d, i, next)
    ensures var e := MergeOutcome(d, i, outcome, eligible, next, time);
            RowsValid(e) && Evolves(d, e) && Grows(d, e)
  {
    var r := RecordEvidence(d, i, outcome);
    RecordEvidenceKeeps(d, i, outcome);
    if FallsBack(d, i, outcome, eligible, next) {
      assert i == |d.attempts| - 1;
      assert Quiet(r);
      ScheduleKeeps(r, next.value.position, Fallback, d.attempts[i].route.intent, time);
      EvolvesTransitive(d, r, MergeOutcome(d, i, outcome, eligible, next, time));
    }
  }

  // ---------------------------------------------------------------- recovery.ts

  lemma RecoveredRow(s: Saved, a: Attempt, time: Time)
    requires AttemptValid(s, a)
    ensures var b := if Overdue(a, time) then RecoverAttempt(a) else a;
            AttemptValid(s, b) && Follows(a, b)
  {
  }

  lemma RecoverKeeps(d: Delivery, time: Time)
    requires RowsValid(d)
    ensures var e := RecoverOverdue(d, time); RowsValid(e) && Evolves(d, e) && Grows(d, e)
  {
    hide AttemptValid, Follows, SavedValid;
    var e := RecoverOverdue(d, time);
    assert CommittedAttempts(e.attempts) == CommittedAttempts(d.attempts);
    forall i | 0 <= i < |e.attempts|
      ensures AttemptValid(d.saved, e.attempts[i]) && Follows(d.attempts[i], e.attempts[i])
    {
      RecoveredRow(d.saved, d.attempts[i], time);
    }
    forall j | 0 <= j < |e.attempts| ensures Linked(e.attempts, j) {
      assert Linked(d.attempts, j);
    }
  }

  // ---------------------------------------------------------------- dispatch.ts

  lemma ProcessingKeeps(d: Delivery)
    requires RowsValid(d)
    ensures RowsValid(StartProcessing(d)) && Evolves(d, StartProcessing(d))
  {
    SameRows(d, StartProcessing(d));
  }

  lemma DropKeeps(d: Delivery, i: nat, code: Option<Diagnostic>)
    requires RowsValid(d) && i < |d.attempts| && d.attempts[i].evidence.state.Pending?
    ensures var e := WithAttempt(d, i, DroppedAttempt(d.attempts[i], code));
            RowsValid(e) && Evolves(d, e)
  {
    ReplaceKeeps(d, i, DroppedAttempt(d.attempts[i], code));
  }

  /** A commitment counts exactly one more send. */
  lemma CommitCountsOne(d: Delivery, i: nat, time: Time)
    requires RowsValid(d) && i < |d.attempts|
    requires d.attempts[i].evidence.state.Pending?
    ensures SendCount(CommitDispatch(d, i, time)) == SendCount(d) + 1
  {
    assert AttemptValid(d.saved, d.attempts[i]);
    assert CommittedAttempts(CommitDispatch(d, i, time).attempts) == CommittedAttempts(d.attempts) + {i};
  }

  lemma CommitKeeps(d: Delivery, i: nat, time: Time)
    requires RowsValid(d) && i < |d.attempts|
    requires d.attempts[i].evidence.state.Pending? && Settled(d.attempts[i])
    requires SendCount(d) < d.saved.maxSends
    ensures RowsValid(CommitDispatch(d, i, time)) && Evolves(d, CommitDispatch(d, i, time))
  {
    var e := CommitDispatch(d, i, time);
    CommitCountsOne(d, i, time);
    assert AttemptValid(d.saved, e.attempts[i]) && Follows(d.attempts[i], e.attempts[i]);
    assert AttemptsFollow(d.attempts, e.attempts);
    forall j | 0 <= j < |e.attempts| ensures Linked(e.attempts, j) {
      assert Linked(d.attempts, j);
    }
    assert IntentsValid(e) && OperationValid(e) && PendingIsCurrent(e);
  }

  lemma GateKeeps(d: Delivery, i: nat, jobRevision: nat, time: Time, mergeTime: Time, view: GateView)
    requires RowsValid(d) && i < |d.attempts| && NextAfter(d, i, view.next)
    ensures var e := Gate(d, i, jobRevision, time, mergeTime, view);
            RowsValid(e) && Evolves(d, e) && Grows(d, e)
  {
    var a := d.attempts[i];
    assert AttemptValid(d.saved, a);
    ProcessingKeeps(d);
    var p := StartProcessing(d);
    var e := Gate(d, i, jobRevision, time, mergeTime, view);
    match GateVerdictOf(d, i, jobRevision, time, view)
    case Ignore =>
    case Hold =>
    case Recover => ReplaceKeeps(d, i, RecoverAttempt(a));
    case Drop => DropKeeps(d, i, None);
    case DropUnused => DropKeeps(d, i, Some(ApprovalUnused));
    case DropLimited =>
      DropKeeps(p, i, Some(BudgetExhausted));
      EvolvesTransitive(d, p, e);
    case FailLocally =>
      MergeKeeps(p, i, LocalFailure(view.target), view.eligible, view.next, mergeTime);
      EvolvesTransitive(d, p, e);
    case Commit =>
      CommitKeeps(p, i, time);
      EvolvesTransitive(d, p, e);
  }

  // ----------------------------------------------------------- authorization.ts

  lemma ClaimKeeps(d: Delivery, i: nat, jobRevision: nat, time: Time, eligible: bool, block: Block)
    requires RowsValid(d) && i < |d.attempts|
    ensures var e := ClaimAuthorization(d, i, jobRevision, time, eligible, block);
            RowsValid(e) && Evolves(d, e)
  {
    var a := d.attempts[i];
    assert AttemptValid(d.saved, a);
    match ClaimVerdictOf(d, i, jobRevision, time, eligible, block)
    case ClaimNothing =>
    case ClaimLapsed => ReplaceKeeps(d, i, LapsedAttempt(a));
    case ClaimGranted => ReplaceKeeps(d, i, ClaimedAttempt(a, time, block));
  }

  lemma FinishKeeps(d: Delivery, i: nat, claim: Claim, decision: AuthorityDecision,
                    time: Time, eligible: bool, block: Block)
    requires RowsValid(d) && i < |d.attempts|
    ensures var e := FinishAuthorization(d, i, claim, decision, time, eligible, block);
            RowsValid(e) && Evolves(d, e)
  {
    var a := d.attempts[i];
    assert AttemptValid(d.saved, a);
    if Decides(a, claim.generation) {
      match decision
      case NoDecision => ReplaceKeeps(d, i, WaitingAttempt(a, time, 0));
      case Wait(retryAt) => ReplaceKeeps(d, i, WaitingAttempt(a, time, retryAt));
      case DenyRoute => ReplaceKeeps(d, i, DeniedAttempt(a));
      case DenyProject(_) => ReplaceKeeps(d, i, DeniedAttempt(a));
      case Approve(until) =>
        var validUntil := Min(until, DispatchDeadline(d, i));
        ReplaceKeeps(d, i, ApprovedAttempt(a, time, validUntil,
          UsableDecision(d, i, claim, validUntil, time, eligible, block)));
    }
  }

  // --------------------------------------------------- actions.ts, lifecycle.ts

  lemma NewDeliveryKeeps(saved: Saved)
    requires SavedValid(saved)
    ensures RowsValid(NewDelivery(saved))
  {
    assert CommittedAttempts(NewDelivery(saved).attempts) == {};
  }

  lemma SendExplicitKeeps(d: Delivery, position: nat, reason: Reason, intent: Intent, time: Time)
    requires RowsValid(d) && d.op.state.Active? && d.attempts != []
    requires !d.op.recipientInvalid && d.op.nextUserSendAt <= time
    requires position < |d.saved.steps| && !reason.Fallback? && intent.project == d.saved.project
    ensures var e := SendExplicit(d, position, reason, intent, time);
            RowsValid(e) && Evolves(d, e)
  {
    SuppressKeeps(d, false);
    var q := SuppressPending(d, false);
    var s := Supersede(d, time);
    var c := s.(intents := s.intents + [intent]);
    assert c.attempts == q.attempts;
    assert Chained(c) && SendCount(c) == SendCount(q);
    assert Evolves(d, c);
    ScheduleKeeps(c, position, reason, |s.intents|, time);
    EvolvesTransitive(d, c, SendExplicit(d, position, reason, intent, time));
  }

  lemma ActivateKeeps(d: Delivery, code: Id, time: Time)
    requires RowsValid(d) && d.op.state.Prepared? && d.op.nextUserSendAt <= time
    ensures RowsValid(Activate(d, code, time)) && Evolves(d, Activate(d, code, time))
  {
    SameRows(d, Activate(d, code, time));
  }

  lemma InitialKeeps(d: Delivery, intent: Intent, time: Time)
    requires RowsValid(d) && d.op.state.Active? && d.attempts == [] && !d.op.recipientInvalid
    requires intent.project == d.saved.project
    ensures var e := ScheduleExplicit(d, d.saved.initialPosition, Initial, intent, time);
            RowsValid(e) && Evolves(d, e)
  {
    var c := d.(intents := d.intents + [intent]);
    assert Evolves(d, c);
    ScheduleKeeps(c, d.saved.initialPosition, Initial, |d.intents|, time);
    EvolvesTransitive(d, c, ScheduleExplicit(d, d.saved.initialPosition, Initial, intent, time));
  }
}
