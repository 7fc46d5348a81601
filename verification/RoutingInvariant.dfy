/** What every reachable set of operation rows satisfies, and what no transaction can undo. */
module RoutingInvariant {
  import opened Prelude
  import opened Records
  import opened Decision
  import opened Routing

  // ------------------------------------------------------------- the invariant

  predicate SavedValid(s: Saved) {
    && 0 < |s.steps|
    && s.initialPosition < |s.steps|
    && 0 <= s.resendCooldown
    && forall k | 0 <= k < |s.steps| :: 1 <= s.steps[k].sendTimeout && 0 <= s.steps[k].minDeliveryWindow
  }

  /** The authorization no longer awaits the send authority, so no decision can overwrite evidence. */
  predicate Settled(a: Attempt) { a.auth.state.NotRequired? || a.auth.state.Approved? }

  /** The row constraints of one attempt. */
  predicate AttemptValid(s: Saved, a: Attempt) {
    && a.route.position < |s.steps|
    && (s.authorizationRequired <==> !a.auth.state.NotRequired?)
    && (a.auth.state.Approved? <==> a.auth.approvedAt.Some?)
    && (a.auth.state.Approved? <==> a.auth.expiresAt.Some?)
    && (a.auth.leaseUntil.Some? ==> a.auth.state.Awaiting?)
    && (a.committedAt.Some? <==> a.recoveryAt.Some?)
    && (a.committedAt.Some? ==> a.recoveryAt.value > a.committedAt.value)
    && (a.invocation.Committed? ==> a.committedAt.Some?)
    && (a.invocation.NotStarted? ==> a.committedAt.None?)
    && (a.evidence.state.Dispatching? ==> a.invocation.Committed?)
    && (a.evidence.state.Accepted? || a.evidence.state.Delivered? ==> a.evidence.acceptance == Some(WasAccepted))
    && (a.evidence.state.Pending? ==> a.invocation.NotStarted? && !a.auth.state.Denied? && !a.auth.state.Lapsed?)
    && (!Settled(a) ==> a.evidence.state.Pending? || a.evidence.state.Suppressed?)
    && (a.committedAt.Some? ==> Settled(a) && Invoked(a.evidence.state))
  }

  /** The only pending work is the current attempt of an active operation, at the current routing
      revision; a pending fallback means automatic routing runs, and an invalid recipient means
      nothing is pending. */
  predicate PendingIsCurrent(d: Delivery) {
    forall i | 0 <= i < |d.attempts| && d.attempts[i].evidence.state.Pending? ::
      && d.op.current == Some(i)
      && d.op.state.Active?
      && d.attempts[i].route.revision == d.op.revision
      && (d.attempts[i].route.reason.Fallback? ==> !d.op.automaticStopped)
      && !d.op.recipientInvalid
  }

  /** A fallback continues the attempt before it: same intent and routing revision, a later route
      step, after that attempt failed for certain. */
  predicate Continues(parent: Attempt, child: Attempt) {
    && parent.route.intent == child.route.intent
    && parent.route.revision == child.route.revision
    && parent.route.position < child.route.position
    && Settled(parent)
    && (parent.evidence.state.Failed? || parent.evidence.state.Delivered?)
  }

  predicate Linked(attempts: seq<Attempt>, j: nat)
    requires j < |attempts|
  {
    if attempts[j].route.reason.Fallback? then 0 < j && Continues(attempts[j-1], attempts[j])
    else 0 < j ==> attempts[j-1].route.revision < attempts[j].route.revision
  }

  predicate Chained(d: Delivery) {
    forall j | 0 <= j < |d.attempts| :: Linked(d.attempts, j)
  }

  predicate OperationValid(d: Delivery) {
    && (Live(d.op) <==> d.op.terminalAt.None?)
    && (Live(d.op) <==> d.secrets.Some?)
    && (d.op.state.Active? ==> d.secrets.value.code.Some?)
    && (d.op.state.Prepared? ==> d.secrets.value.code.None? && d.attempts == [])
    && (!Live(d.op) ==> d.op.automaticStopped)
    && (d.op.recipientInvalid ==> d.op.automaticStopped && d.attempts != [])
    && d.op.current == (if d.attempts == [] then None else Some(|d.attempts| - 1))
    && (d.attempts == [] ==> Live(d.op) ==> d.op.revision == 1)
    && (d.attempts != [] ==>
          var last := d.attempts[|d.attempts|-1].route.revision;
          if Live(d.op) then last == d.op.revision else last < d.op.revision)
  }

  predicate IntentsValid(d: Delivery) {
    && (forall i | 0 <= i < |d.attempts| :: d.attempts[i].route.intent < |d.intents|)
    && (forall k | 0 <= k < |d.intents| :: d.intents[k].project == d.saved.project)
  }

  predicate RowsValid(d: Delivery) {
    && SavedValid(d.saved)
    && OperationValid(d)
    && (forall i | 0 <= i < |d.attempts| :: AttemptValid(d.saved, d.attempts[i]))
    && PendingIsCurrent(d)
    && Chained(d)
    && IntentsValid(d)
    && SendCount(d) <= d.saved.maxSends
  }

  // ------------------------------------------------------- what cannot be undone

  /** How one attempt row may develop. */
  predicate Follows(a: Attempt, b: Attempt) {
    && b.route == a.route
    && (!a.evidence.state.Pending? ==> !b.evidence.state.Pending?)
    && (a.evidence.state.Suppressed? ==> b.evidence.state.Suppressed?)
    && (a.committedAt.Some? ==> b.committedAt == a.committedAt && b.recoveryAt == a.recoveryAt)
    && (Settled(a) ==> b.auth == a.auth)
    && (Settled(a) && Invoked(a.evidence.state) ==>
          Invoked(b.evidence.state) && Rank(a.evidence.state) <= Rank(b.evidence.state))
    && (a.auth.state.Denied? ==> b.auth == a.auth)
    && a.auth.generation <= b.auth.generation
  }

  predicate AttemptsFollow(a: seq<Attempt>, b: seq<Attempt>) {
    && |a| <= |b|
    && forall i | 0 <= i < |a| :: Follows(a[i], b[i])
  }

  predicate Evolves(d: Delivery, e: Delivery) {
    && e.saved == d.saved
    && AttemptsFollow(d.attempts, e.attempts)
    && d.intents <= e.intents
    && d.op.revision <= e.op.revision
    && d.op.nextUserSendAt <= e.op.nextUserSendAt
    && (d.op.recipientInvalid ==> e.op.recipientInvalid)
    && (!Live(d.op) ==> e.op.state == d.op.state && e.op.terminalAt == d.op.terminalAt)
    && (d.op.state.Active? ==> !e.op.state.Prepared?)
  }

  /** A statement that captures no intent creates at most one attempt, and leaves the cooldown of an
      operation without a code alone. */
  predicate Grows(d: Delivery, e: Delivery) {
    && |d.attempts| <= |e.attempts| <= |d.attempts| + 1
    && e.intents == d.intents
    && (e.op.state.Prepared? ==> e.op.nextUserSendAt == d.op.nextUserSendAt)
  }

  lemma EvolvesReflexive(d: Delivery)
    ensures Evolves(d, d)
  {
  }

  lemma EvolvesTransitive(a: Delivery, b: Delivery, c: Delivery)
    requires Evolves(a, b) && Evolves(b, c)
    ensures Evolves(a, c)
  {
    forall i | 0 <= i < |a.attempts| ensures Follows(a.attempts[i], c.attempts[i]) {
      assert Follows(a.attempts[i], b.attempts[i]) && Follows(b.attempts[i], c.attempts[i]);
    }
  }

  // ----------------------------------------------------- the individual statements

  /** Replacing one row keeps the invariant when the row stays valid, keeps its links and is not
      newly pending or newly committed. */
  lemma ReplaceKeeps(d: Delivery, i: nat, a: Attempt)
    requires RowsValid(d) && i < |d.attempts|
    requires AttemptValid(d.saved, a) && Follows(d.attempts[i], a)
    requires a.committedAt == d.attempts[i].committedAt
    ensures RowsValid(WithAttempt(d, i, a)) && Evolves(d, WithAttempt(d, i, a))
  {
    hide AttemptValid, SavedValid;
    var e := WithAttempt(d, i, a);
    assert CommittedAttempts(e.attempts) == CommittedAttempts(d.attempts);
    forall j | 0 <= j < |e.attempts| ensures Linked(e.attempts, j) {
      assert Linked(d.attempts, j);
    }
  }

  lemma SuppressedRow(s: Saved, a: Attempt, onlyFallback: bool)
    requires AttemptValid(s, a)
    ensures var b := if Suppressible(a, onlyFallback) then SuppressAttempt(a) else a;
            AttemptValid(s, b) && Follows(a, b)
  {
  }

  lemma SuppressedLinks(d: Delivery, onlyFallback: bool)
    requires Chained(d)
    ensures Chained(SuppressPending(d, onlyFallback))
  {
    var e := SuppressPending(d, onlyFallback);
    forall j | 0 <= j < |e.attempts| ensures Linked(e.attempts, j) {
      assert Linked(d.attempts, j);
    }
  }

  lemma SuppressKeeps(d: Delivery, onlyFallback: bool)
    requires RowsValid(d)
    ensures var e := SuppressPending(d, onlyFallback);
            && RowsValid(e) && Evolves(d, e)
            && e.op == d.op
            && forall i | 0 <= i < |e.attempts| ::
                 e.attempts[i].evidence.state.Pending? ==>
                   onlyFallback && !e.attempts[i].route.reason.Fallback?
  {
    var e := SuppressPending(d, onlyFallback);
    assert CommittedAttempts(e.attempts) == CommittedAttempts(d.attempts);
    forall i | 0 <= i < |e.attempts|
      ensures AttemptValid(d.saved, e.attempts[i]) && Follows(d.attempts[i], e.attempts[i])
    {
      SuppressedRow(d.saved, d.attempts[i], onlyFallback);
    }
    assert AttemptsFollow(d.attempts, e.attempts);
    SuppressedLinks(d, onlyFallback);
    assert PendingIsCurrent(e);
    assert IntentsValid(e);
    assert OperationValid(e);
  }

  /** Suppression leaves nothing pending unless it is restricted to fallbacks. */
  predicate Quiet(d: Delivery) {
    forall i | 0 <= i < |d.attempts| :: !d.attempts[i].evidence.state.Pending?
  }

  /** Closing an operation on which nothing is pending. */
  lemma ClosedKeeps(s: Delivery, e: Delivery)
    requires RowsValid(s) && Quiet(s)
    requires e.saved == s.saved && e.attempts == s.attempts && e.intents == s.intents && e.secrets.None?
    requires !Live(e.op) && e.op.terminalAt.Some? && e.op.automaticStopped && e.op.current == s.op.current
    requires e.op.recipientInvalid == s.op.recipientInvalid && e.op.nextUserSendAt == s.op.nextUserSendAt
    requires if Live(s.op) then e.op.revision == s.op.revision + 1 else e.op == s.op
    ensures RowsValid(e) && Evolves(s, e)
  {
    hide AttemptValid, Follows, SavedValid, Linked;
    forall i | 0 <= i < |s.attempts| ensures Follows(s.attempts[i], e.attempts[i]) {
      SameFollows(s.attempts[i]);
    }
    assert CommittedAttempts(e.attempts) == CommittedAttempts(s.attempts);
  }

  lemma SameFollows(a: Attempt)
    ensures Follows(a, a)
  {
  }

  lemma TerminateKeeps(d: Delivery, state: OperationState, time: Time)
    requires RowsValid(d) && (state.Closed? || state.Expired?)
    ensures var e := Terminate(d, state, time);
            && RowsValid(e) && Evolves(d, e) && Quiet(e) && !Live(e.op)
            && e.op.nextUserSendAt == d.op.nextUserSendAt
  {
    var s := SuppressPending(d, false);
    var e := Terminate(d, state, time);
    SuppressKeeps(d, false);
    assert e.attempts == s.attempts;
    if !Live(d.op) {
      TerminalKept(d);
    }
    hide RowsValid, Evolves, SuppressPending;
    ClosedKeeps(s, e);
    EvolvesTransitive(d, s, e);
  }

  lemma TerminalKept(d: Delivery)
    requires RowsValid(d) && !Live(d.op)
    ensures d.op.terminalAt.Some? && d.op.automaticStopped && d.secrets.None?
  {
  }

  lemma ExpireKeeps(d: Delivery, time: Time)
    requires RowsValid(d)
    ensures RowsValid(Expire(d, time)) && Evolves(d, Expire(d, time))
    ensures Expire(d, time).op.nextUserSendAt == d.op.nextUserSendAt
  {
    if Live(d.op) && time >= d.saved.expiresAt {
      TerminateKeeps(d, Expired, time);
    }
  }

  /** Scheduling is safe when nothing is pending and the new row links to the last one. */
  lemma ScheduleKeeps(d: Delivery, position: nat, reason: Reason, intent: nat, time: Time)
    requires SavedValid(d.saved) && IntentsValid(d)
    requires forall i | 0 <= i < |d.attempts| :: AttemptValid(d.saved, d.attempts[i])
    requires Quiet(d) && Chained(d) && SendCount(d) <= d.saved.maxSends
    requires position < |d.saved.steps| && intent < |d.intents|
    requires d.op.state.Active? && d.op.terminalAt.None? && !d.op.recipientInvalid
    requires d.secrets.Some? && d.secrets.value.code.Some?
    requires reason.Fallback? ==>
               && !d.op.automaticStopped
               && d.attempts != []
               && var p := d.attempts[|d.attempts|-1];
                  && p.route.intent == intent && p.route.revision == d.op.revision
                  && p.route.position < position && Settled(p) && p.evidence.state.Failed?
    requires !reason.Fallback? ==>
               d.attempts != [] ==> d.attempts[|d.attempts|-1].route.revision < d.op.revision
    ensures var e := Schedule(d, position, reason, intent, time);
            RowsValid(e) && Evolves(d, e)
  {
    var e := Schedule(d, position, reason, intent, time);
    assert CommittedAttempts(e.attempts) == CommittedAttempts(d.attempts);
    forall j | 0 <= j < |e.attempts| ensures Linked(e.attempts, j) {
      if j < |d.attempts| {
        assert Linked(d.attempts, j);
      }
    }
  }
}
