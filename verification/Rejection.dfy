/** What a rejected request leaves behind, although rejections commit. */
module Rejection {
  import opened Prelude
  import opened Records
  import opened Routing
  import opened RoutingInvariant
  import opened Authority
  import opened Quotas
  import opened Engine
  import opened EngineInvariant
  import opened EngineSteps

  /** A rejected explicit send commits nothing but logical expiry. */
  lemma RejectedSendWritesNothing(db: Db, operation: Id, principal: Id, action: Action, time: Time)
    requires RequestSend(db, operation, principal, action, time).result.Failure?
    ensures var after := RequestSend(db, operation, principal, action, time).db;
            after == db || after == ExpireOperation(db, operation, time)
  {
    hide ExpireOperation, ChooseTarget, RequestSendLocked;
    if CheckAccess(db, operation, principal).None? {
      ExpiredSaved(db, operation, time);
      RequestDecidedFirst(ExpireOperation(db, operation, time), operation, principal, action, time);
    }
  }

  lemma ExpiredSaved(db: Db, operation: Id, time: Time)
    requires operation in db.deliveries
    ensures var e := ExpireOperation(db, operation, time);
            && operation in e.deliveries && e.env == db.env
            && e.deliveries[operation].saved == db.deliveries[operation].saved
  {
  }

  /** An accepted explicit send creates exactly one attempt, the current one, in a new routing revision. */
  lemma AcceptedSendCreatesOne(db: Db, operation: Id, principal: Id, action: Action, time: Time)
    requires RequestSend(db, operation, principal, action, time).result.Success?
    ensures operation in db.deliveries
    ensures var before := ExpireOperation(db, operation, time).deliveries[operation];
            var reply := RequestSend(db, operation, principal, action, time);
            && operation in reply.db.deliveries
            && var after := reply.db.deliveries[operation];
               && |after.attempts| == |before.attempts| + 1
               && reply.result == Success(AttemptId(operation, |before.attempts|))
               && after.op.current == Some(|before.attempts|)
               && after.op.revision == before.op.revision + 1
               && !after.op.automaticStopped
               && (var a := after.attempts[|before.attempts|];
                   && a.route.revision == after.op.revision && a.route.reason == ReasonOf(action)
                   && a.evidence.state.Pending? && a.route.intent == |before.intents|)
               && forall i | 0 <= i < |before.attempts| :: !after.attempts[i].evidence.state.Pending?
  {
    hide ChooseTarget, RequestSendLocked, Count, RequireAccess, CaptureAuthority;
    ExpiredSaved(db, operation, time);
    var expired := ExpireOperation(db, operation, time);
    RequestDecidedFirst(expired, operation, principal, action, time);
    hide Expire;
    var d := expired.deliveries[operation];
    var intent := CapturedIntent(expired.env.world, d.saved, ReasonOf(action), principal, time);
    SentShape(d, ChooseTarget(expired, d, action, time).value.position, ReasonOf(action), intent, time);
  }

  lemma SentShape(d: Delivery, position: nat, reason: Reason, intent: Intent, time: Time)
    ensures var e := SendExplicit(d, position, reason, intent, time);
            && |e.attempts| == |d.attempts| + 1
            && e.op == d.op.(current := Some(|d.attempts|), revision := d.op.revision + 1, automaticStopped := false,
                             nextUserSendAt := time + d.saved.resendCooldown)
            && (var a := e.attempts[|d.attempts|];
                && a.route == AttemptRoute(|d.intents|, position, d.op.revision + 1, reason, time)
                && a.evidence.state.Pending?)
            && forall i | 0 <= i < |d.attempts| :: !e.attempts[i].evidence.state.Pending?
  {
  }

  // -------------------------------------------------------------- attaching a code

  /** The operation is waiting for a code that fits, so attaching it has work to do. */
  predicate AwaitsCode(d: Delivery, code: Code) {
    Live(d.op) && d.secrets.Some? && d.secrets.value.code.None? && CodeFits(d.saved, code)
  }

  /** What scheduling the initial attempt needs beyond the caller's access. */
  predicate PolicyHeld(w: World, saved: Saved) {
    EnabledResource(w, PolicyKey(saved.policy)) && ActiveGrant(w, saved.project, PolicyKey(saved.policy)).Some?
  }

  /** The code and the active state were written, but no attempt was. */
  predicate Stranded(d: Delivery) {
    d.op.state.Active? && d.secrets.Some? && d.secrets.value.code.Some? && d.attempts == []
  }

  /** Attaching a code is all or nothing exactly when the policy is still enabled and granted, or the operation
      is not waiting for this code at all; otherwise the rejection leaves a stranded operation behind. */
  lemma SubmitIsAtomicExactlyWhenPolicyHeld(db: Db, operation: Id, principal: Id, code: Code, time: Time)
    requires DbValid(db) && CheckAccess(db, operation, principal).None?
    ensures operation in db.deliveries
    ensures var expired := ExpireOperation(db, operation, time);
            var reply := Submit(db, operation, principal, code, time);
            && operation in expired.deliveries
            && var d := expired.deliveries[operation];
               && ((reply.result.Failure? ==> reply.db == expired) <==>
                     !AwaitsCode(d, code) || PolicyHeld(db.env.world, d.saved))
               && (AwaitsCode(d, code) && !PolicyHeld(db.env.world, d.saved) ==>
                     && reply.result == Failure(PolicyNotAllowed)
                     && operation in reply.db.deliveries && Stranded(reply.db.deliveries[operation]))
               && (AwaitsCode(d, code) && PolicyHeld(db.env.world, d.saved) ==>
                     && reply.result == Success(AttemptId(operation, 0))
                     && operation in reply.db.deliveries && |reply.db.deliveries[operation].attempts| == 1)
  {
    hide DbValid, DbEvolves, RowsValid;
    ExpiredSaved(db, operation, time);
    ExpireValid(db, operation, time);
    hide Expire;
    var expired := ExpireOperation(db, operation, time);
    var d := expired.deliveries[operation];
    if AwaitsCode(d, code) {
      CodelessPrepared(expired, operation);
      NoAttemptsYet(expired, operation);
    }
  }

  lemma NoAttemptsYet(db: Db, operation: Id)
    requires DbValid(db) && operation in db.deliveries && db.deliveries[operation].op.state.Prepared?
    ensures db.deliveries[operation].attempts == []
  {
    ValidRows(db, operation);
  }

  /** A stranded operation cannot be repaired by its clients: every explicit send is rejected, and submitting the
      same code again is answered as a success that schedules nothing. */
  lemma StrandedStaysUnsent(db: Db, operation: Id, principal: Id, action: Action, code: Code, time: Time)
    requires DbValid(db) && operation in db.deliveries && Stranded(db.deliveries[operation])
    requires time < db.deliveries[operation].saved.expiresAt
    requires CheckAccess(db, operation, principal).None?
    ensures var sent := RequestSend(db, operation, principal, action, time);
            sent.result == Failure(DeliveryUnavailable) && sent.db == Tick(db, time)
    ensures db.deliveries[operation].secrets.value.code == Some(code.fingerprint) ==>
              var again := Submit(db, operation, principal, code, time);
              again.result.Success? && again.db == Tick(db, time)
  {
    hide DbValid, RowsValid;
    NoCurrent(db, operation);
    assert db.deliveries[operation := db.deliveries[operation]] == db.deliveries;
    assert ExpireOperation(db, operation, time) == Tick(db, time);
  }

  lemma NoCurrent(db: Db, operation: Id)
    requires DbValid(db) && operation in db.deliveries && db.deliveries[operation].attempts == []
    ensures db.deliveries[operation].op.current.None?
  {
    ValidRows(db, operation);
  }
}
