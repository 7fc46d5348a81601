/** Every reachable state of the engine keeps its rows valid, and no transaction undoes what is recorded. */
module EngineInvariant {
  import opened Prelude
  import opened Records
  import opened RoutingInvariant
  import opened Authority
  import opened Revocation
  import opened Engine

  // ---------------------------------------------------------------- the invariant

  ghost predicate RowsCaptured(w: World, d: Delivery) {
    && RowsValid(d)
    && RouteKnown(w, d.saved)
    && forall k | 0 <= k < |d.intents| :: IntentCaptured(w, d.saved, d.intents[k])
  }

  /** Until a code is attached, the cooldown is the admission instant. */
  predicate Unstarted(d: Delivery, clock: Time) { d.op.state.Prepared? ==> d.op.nextUserSendAt <= clock }

  /** The attempt holds a dispatch commitment, so a provider can know it. */
  predicate Known(db: Db, id: AttemptId) {
    Present(db, id) && AttemptAt(db, id).committedAt.Some?
  }

  predicate AliasValid(db: Db, alias: Alias, id: AttemptId) {
    && Addressable(db, id)
    && StepAt(db, id).instance == alias.instance
    && match alias.reference
       case AttemptReference(named) => named == id
       case ProviderReference(_) => Known(db, id)
  }

  ghost predicate AliasesValid(db: Db, correlations: map<Alias, AttemptId>) {
    forall alias | alias in correlations :: AliasValid(db, alias, correlations[alias])
  }

  predicate ReferenceKnown(db: Db, reference: Reference) {
    reference.AttemptReference? ==> Known(db, reference.attempt)
  }

  ghost predicate DbValid(db: Db) {
    && WorldValid(db.env.world)
    && (forall op | op in db.deliveries :: RowsCaptured(db.env.world, db.deliveries[op]))
    && (forall op | op in db.deliveries :: Unstarted(db.deliveries[op], db.clock))
    && AliasesValid(db, db.correlations)
    && (forall k | 0 <= k < |db.inbox| :: ReferenceKnown(db, db.inbox[k].reference))
  }

  // ------------------------------------------------------- what cannot be undone

  ghost predicate DeliveriesEvolve(a: Db, b: Db) {
    forall op | op in a.deliveries :: op in b.deliveries && Evolves(a.deliveries[op], b.deliveries[op])
  }

  predicate RowFollows(a: InboxRow, b: InboxRow) {
    b == a.(processed := b.processed, dropped := b.dropped) && (a.processed ==> b.processed) && (a.dropped ==> b.dropped)
  }

  predicate InboxFollows(a: seq<InboxRow>, b: seq<InboxRow>) {
    && |a| <= |b|
    && forall k | 0 <= k < |a| :: RowFollows(a[k], b[k])
  }

  ghost predicate CorrelationsKept(a: Db, b: Db) {
    forall alias | alias in a.correlations :: alias in b.correlations && b.correlations[alias] == a.correlations[alias]
  }

  ghost predicate DbEvolves(a: Db, b: Db) {
    && DeliveriesEvolve(a, b)
    && Advances(a.env.world, b.env.world)
    && CorrelationsKept(a, b)
    && InboxFollows(a.inbox, b.inbox)
    && a.observations <= b.observations
    && a.trail <= b.trail
  }

  lemma DbEvolvesReflexive(db: Db)
    ensures DbEvolves(db, db)
  {
  }

  lemma DbEvolvesTransitive(a: Db, b: Db, c: Db)
    requires DbEvolves(a, b) && DbEvolves(b, c)
    ensures DbEvolves(a, c)
  {
    AdvancesTransitive(a.env.world, b.env.world, c.env.world);
    forall op | op in a.deliveries ensures op in c.deliveries && Evolves(a.deliveries[op], c.deliveries[op]) {
      EvolvesTransitive(a.deliveries[op], b.deliveries[op], c.deliveries[op]);
    }
    forall k | 0 <= k < |a.inbox| ensures RowFollows(a.inbox[k], c.inbox[k]) {
      assert RowFollows(a.inbox[k], b.inbox[k]) && RowFollows(b.inbox[k], c.inbox[k]);
    }
  }

  lemma AddressableLater(a: Db, b: Db, id: AttemptId)
    requires DeliveriesEvolve(a, b) && Addressable(a, id)
    ensures Addressable(b, id) && StepAt(b, id) == StepAt(a, id) && IntentAt(b, id) == IntentAt(a, id)
    ensures Follows(AttemptAt(a, id), AttemptAt(b, id))
    ensures Known(a, id) ==> Known(b, id)
  {
    assert Evolves(a.deliveries[id.operation], b.deliveries[id.operation]);
    assert Follows(AttemptAt(a, id), AttemptAt(b, id));
  }

  lemma ValidAddressable(db: Db, id: AttemptId)
    requires DbValid(db) && Present(db, id)
    ensures Addressable(db, id) && AttemptValid(db.deliveries[id.operation].saved, AttemptAt(db, id))
  {
    assert RowsCaptured(db.env.world, db.deliveries[id.operation]);
  }

  lemma AliasesLater(a: Db, b: Db)
    requires DbValid(a) && DeliveriesEvolve(a, b)
    ensures AliasesValid(b, a.correlations)
    ensures forall k | 0 <= k < |a.inbox| :: ReferenceKnown(b, a.inbox[k].reference)
  {
    forall alias | alias in a.correlations ensures AliasValid(b, alias, a.correlations[alias]) {
      assert AliasValid(a, alias, a.correlations[alias]);
      AddressableLater(a, b, a.correlations[alias]);
    }
    forall k | 0 <= k < |a.inbox| ensures ReferenceKnown(b, a.inbox[k].reference) {
      assert ReferenceKnown(a, a.inbox[k].reference);
      if a.inbox[k].reference.AttemptReference? {
        ValidAddressable(a, a.inbox[k].reference.attempt);
        AddressableLater(a, b, a.inbox[k].reference.attempt);
      }
    }
  }

  lemma StoredEvolves(db: Db, operation: Id, e: Delivery)
    requires operation in db.deliveries && Evolves(db.deliveries[operation], e)
    ensures DeliveriesEvolve(db, Store(db, operation, e))
  {
    forall op | op in db.deliveries
      ensures op in Store(db, operation, e).deliveries
      ensures Evolves(db.deliveries[op], Store(db, operation, e).deliveries[op])
    {
      EvolvesReflexive(db.deliveries[op]);
    }
  }

  lemma UnnamedUntilScheduled(db: Db, instance: Id, id: AttemptId)
    requires AliasesValid(db, db.correlations) && !Present(db, id)
    ensures Alias(instance, AttemptReference(id)) !in db.correlations
  {
    var alias := Alias(instance, AttemptReference(id));
    assert alias in db.correlations ==> AliasValid(db, alias, db.correlations[alias]);
  }

  function ScheduledId(operation: Id, e: Delivery): AttemptId
    requires e.attempts != []
  {
    AttemptId(operation, |e.attempts| - 1)
  }

  function ScheduledAlias(operation: Id, e: Delivery): Alias
    requires e.attempts != [] && e.attempts[|e.attempts|-1].route.position < |e.saved.steps|
  {
    Alias(e.saved.steps[e.attempts[|e.attempts|-1].route.position].instance, AttemptReference(ScheduledId(operation, e)))
  }

  /** The only new alias is the id of the attempt that was added, which no alias could name before. */
  lemma NewAlias(db: Db, operation: Id, e: Delivery)
    requires AliasesValid(db, db.correlations) && operation in db.deliveries
    requires RowsValid(e) && |e.attempts| == |db.deliveries[operation].attempts| + 1
    ensures e.attempts[|e.attempts|-1].route.position < |e.saved.steps|
    ensures ScheduledAlias(operation, e) !in db.correlations
    ensures Store(db, operation, e).correlations == db.correlations[ScheduledAlias(operation, e) := ScheduledId(operation, e)]
    ensures AliasValid(Store(db, operation, e), ScheduledAlias(operation, e), ScheduledId(operation, e))
  {
    assert AttemptValid(e.saved, e.attempts[|e.attempts|-1]);
    UnnamedUntilScheduled(db, ScheduledAlias(operation, e).instance, ScheduledId(operation, e));
  }

  lemma AliasAdded(db: Db, correlations: map<Alias, AttemptId>, alias: Alias, id: AttemptId)
    requires AliasesValid(db, correlations) && AliasValid(db, alias, id)
    ensures AliasesValid(db, correlations[alias := id])
  {
    var added := correlations[alias := id];
    forall other | other in added ensures AliasValid(db, other, added[other]) {
      if other != alias {
        assert AliasValid(db, other, correlations[other]);
      }
    }
  }

  lemma StoredAliases(db: Db, operation: Id, e: Delivery)
    requires AliasesValid(db, db.correlations) && operation in db.deliveries
    requires AliasesValid(Store(db, operation, e), db.correlations)
    requires RowsValid(e) && |e.attempts| <= |db.deliveries[operation].attempts| + 1
    ensures CorrelationsKept(db, Store(db, operation, e))
    ensures AliasesValid(Store(db, operation, e), Store(db, operation, e).correlations)
  {
    var s := Store(db, operation, e);
    if |e.attempts| == |db.deliveries[operation].attempts| + 1 {
      NewAlias(db, operation, e);
      AliasAdded(s, db.correlations, ScheduledAlias(operation, e), ScheduledId(operation, e));
    }
  }

  lemma StoredRows(db: Db, operation: Id, e: Delivery)
    requires DbValid(db) && operation in db.deliveries
    requires RowsCaptured(db.env.world, e) && Unstarted(e, db.clock)
    ensures forall op | op in Store(db, operation, e).deliveries ::
              && RowsCaptured(db.env.world, Store(db, operation, e).deliveries[op])
              && Unstarted(Store(db, operation, e).deliveries[op], db.clock)
  {
    hide RowsCaptured, Unstarted, RowsValid;
  }

  lemma StoredReferences(db: Db, operation: Id, e: Delivery)
    requires DbValid(db) && operation in db.deliveries
    requires RowsValid(e) && Evolves(db.deliveries[operation], e)
    requires |e.attempts| <= |db.deliveries[operation].attempts| + 1
    ensures var s := Store(db, operation, e);
            && AliasesValid(s, s.correlations) && CorrelationsKept(db, s)
            && forall k | 0 <= k < |s.inbox| :: ReferenceKnown(s, s.inbox[k].reference)
  {
    hide RowsCaptured, RowsValid, Evolves, AliasValid, ReferenceKnown;
    StoredEvolves(db, operation, e);
    AliasesLater(db, Store(db, operation, e));
    StoredAliases(db, operation, e);
  }

  lemma EvolvedCaptured(w: World, d: Delivery, e: Delivery)
    requires RowsCaptured(w, d) && RowsValid(e) && Evolves(d, e)
    requires forall k | 0 <= k < |e.intents| :: IntentCaptured(w, e.saved, e.intents[k])
    ensures RowsCaptured(w, e)
  {
    hide RowsValid, IntentCaptured;
  }

  lemma WorldStands(w: World)
    ensures Advances(w, w)
  {
  }

  lemma StoredDbEvolves(db: Db, operation: Id, e: Delivery)
    requires operation in db.deliveries && Evolves(db.deliveries[operation], e)
    requires CorrelationsKept(db, Store(db, operation, e))
    ensures DbEvolves(db, Store(db, operation, e))
  {
    hide Advances, DeliveriesEvolve, CorrelationsKept, Evolves;
    StoredEvolves(db, operation, e);
    WorldStands(db.env.world);
  }

  /** Writing back rows that are valid and evolved is always safe. */
  lemma StoreKeeps(db: Db, operation: Id, e: Delivery)
    requires DbValid(db) && operation in db.deliveries
    requires RowsValid(e) && Evolves(db.deliveries[operation], e)
    requires |e.attempts| <= |db.deliveries[operation].attempts| + 1
    requires forall k | 0 <= k < |e.intents| :: IntentCaptured(db.env.world, e.saved, e.intents[k])
    requires Unstarted(e, db.clock)
    ensures DbValid(Store(db, operation, e)) && DbEvolves(db, Store(db, operation, e))
  {
    hide RowsCaptured, RowsValid, Unstarted, AliasesValid, ReferenceKnown, CorrelationsKept, WorldValid, Evolves,
      RegisterScheduled, DbEvolves, IntentCaptured;
    StoredReferences(db, operation, e);
    StoredDbEvolves(db, operation, e);
    EvolvedCaptured(db.env.world, db.deliveries[operation], e);
    StoredRows(db, operation, e);
  }

  lemma StoreGrown(db: Db, operation: Id, e: Delivery)
    requires DbValid(db) && operation in db.deliveries
    requires RowsValid(e) && Evolves(db.deliveries[operation], e) && Grows(db.deliveries[operation], e)
    ensures DbValid(Store(db, operation, e)) && DbEvolves(db, Store(db, operation, e))
  {
    assert RowsCaptured(db.env.world, db.deliveries[operation]);
    assert Unstarted(db.deliveries[operation], db.clock);
    StoreKeeps(db, operation, e);
  }
}
