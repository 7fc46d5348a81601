/** The callback transactions keep `DbValid`: events are inserted, aliases registered and rows applied. */
module InboxSteps {
  import opened Prelude
  import opened Records
  import opened Engine
  import opened EngineInvariant
  import opened EngineSteps

  predicate EventsKnown(db: Db, events: seq<CallbackEvent>) {
    forall k | 0 <= k < |events| :: ReferenceKnown(db, events[k].reference)
  }

  lemma EventsKnownLater(a: Db, b: Db, events: seq<CallbackEvent>)
    requires DbValid(a) && DbEvolves(a, b) && EventsKnown(a, events)
    ensures EventsKnown(b, events)
  {
    forall k | 0 <= k < |events| ensures ReferenceKnown(b, events[k].reference) {
      if events[k].reference.AttemptReference? {
        KnownLater(a, b, events[k].reference.attempt);
      }
    }
  }

  /** A new alias and a new inbox row change no operation rows. */
  lemma InboxTables(a: Db, b: Db)
    requires DbValid(a)
    requires b.env == a.env && b.clock == a.clock && b.deliveries == a.deliveries
    requires b.observations == a.observations && b.trail == a.trail
    requires CorrelationsKept(a, b) && AliasesValid(b, b.correlations)
    requires InboxFollows(a.inbox, b.inbox)
    requires forall k | 0 <= k < |b.inbox| :: ReferenceKnown(b, b.inbox[k].reference)
    ensures DbValid(b) && DbEvolves(a, b)
  {
    DbEvolvesReflexive(a);
    forall op | op in b.deliveries ensures RowsCaptured(b.env.world, b.deliveries[op]) {
      assert RowsCaptured(a.env.world, a.deliveries[op]);
    }
    forall op | op in b.deliveries ensures Unstarted(b.deliveries[op], b.clock) {
      assert Unstarted(a.deliveries[op], a.clock);
    }
  }

  lemma AliasesCarried(a: Db, b: Db, correlations: map<Alias, AttemptId>)
    requires b.deliveries == a.deliveries && AliasesValid(a, correlations)
    ensures AliasesValid(b, correlations)
  {
    forall alias | alias in correlations ensures AliasValid(b, alias, correlations[alias]) {
      assert AliasValid(a, alias, correlations[alias]);
    }
  }

  lemma ValidTables(db: Db)
    requires DbValid(db)
    ensures AliasesValid(db, db.correlations)
    ensures forall k | 0 <= k < |db.inbox| :: ReferenceKnown(db, db.inbox[k].reference)
  {
  }

  lemma RegisterValid(db: Db, alias: Alias, id: AttemptId)
    requires DbValid(db) && AliasValid(db, alias, id) && Register(db, alias, id).Some?
    ensures DbValid(Register(db, alias, id).value) && DbEvolves(db, Register(db, alias, id).value)
    ensures Register(db, alias, id).value == db.(correlations := db.correlations[alias := id])
  {
    hide DbValid, DbEvolves, AliasValid, AliasesValid;
    var r := Register(db, alias, id).value;
    ValidTables(db);
    AliasAdded(db, db.correlations, alias, id);
    assert db.correlations[alias := id] == r.correlations;
    AliasesCarried(db, r, r.correlations);
    assert forall k | 0 <= k < |r.inbox| :: ReferenceKnown(db, r.inbox[k].reference);
    InboxTables(db, r);
  }

  lemma InsertRowValid(db: Db, instance: Id, event: CallbackEvent)
    requires DbValid(db) && ReferenceKnown(db, event.reference)
    ensures DbValid(InsertRow(db, instance, event)) && DbEvolves(db, InsertRow(db, instance, event))
  {
    hide DbValid, DbEvolves, AliasValid, AliasesValid;
    var r := InsertRow(db, instance, event);
    ValidTables(db);
    AliasesCarried(db, r, r.correlations);
    assert forall k | 0 <= k < |r.inbox| :: ReferenceKnown(db, r.inbox[k].reference);
    InboxTables(db, r);
  }

  lemma EventTargetValid(db: Db, instance: Id, event: CallbackEvent)
    requires DbValid(db) && ReferenceKnown(db, event.reference)
    ensures var target := EventTarget(db, instance, event);
            target.Some? ==> AliasValid(db, Alias(instance, ProviderReference(event.request.value)), target.value)
  {
    if EventTarget(db, instance, event).Some? {
      assert AliasValid(db, Alias(instance, event.reference), db.correlations[Alias(instance, event.reference)]);
    }
  }

  /** Only rows about a committed attempt can be found under an alias. */
  lemma RowKnown(db: Db, alias: Alias, k: nat)
    requires DbValid(db) && alias in db.correlations && k < |db.inbox|
    requires db.inbox[k].instance == alias.instance && db.inbox[k].reference == alias.reference
    ensures Known(db, db.correlations[alias])
  {
    assert AliasValid(db, alias, db.correlations[alias]);
    assert ReferenceKnown(db, db.inbox[k].reference);
  }

  lemma ForgetValid(db: Db, places: set<nat>, time: Time)
    requires DbValid(db)
    ensures DbValid(ForgetCallbacks(db, places, time)) && DbEvolves(db, ForgetCallbacks(db, places, time))
  {
    hide DbValid, DbEvolves, AliasValid, AliasesValid;
    TickValid(db, time);
    var t := Tick(db, time);
    var f := ForgetCallbacks(db, places, time);
    ValidTables(t);
    AliasesCarried(t, f, f.correlations);
    forall j | 0 <= j < |f.inbox| ensures ReferenceKnown(f, f.inbox[j].reference) {
      assert ReferenceKnown(t, t.inbox[j].reference);
    }
    InboxTables(t, f);
    DbEvolvesTransitive(db, t, f);
  }

  lemma ProcessedValid(db: Db, k: nat)
    requires DbValid(db) && k < |db.inbox|
    ensures var p := db.(inbox := db.inbox[k := db.inbox[k].(processed := true)]); DbValid(p) && DbEvolves(db, p)
  {
    hide DbValid, DbEvolves, AliasValid, AliasesValid;
    var p := db.(inbox := db.inbox[k := db.inbox[k].(processed := true)]);
    ValidTables(db);
    AliasesCarried(db, p, p.correlations);
    forall j | 0 <= j < |p.inbox| ensures ReferenceKnown(p, p.inbox[j].reference) {
      assert ReferenceKnown(db, db.inbox[j].reference);
    }
    InboxTables(db, p);
  }

  lemma ApplyRowValid(db: Db, id: AttemptId, k: nat, time: Time)
    requires DbValid(db) && k < |db.inbox| && Known(db, id)
    ensures DbValid(ApplyRow(db, id, k, time)) && DbEvolves(db, ApplyRow(db, id, k, time))
  {
    hide DbValid, DbEvolves;
    var outcome := CallbackOutcome(db.inbox[k]);
    MergeValid(db, id, outcome, Callback(k), time);
    var m := Merge(db, id, outcome, Callback(k), time);
    ProcessedValid(m, k);
    DbEvolvesTransitive(db, m, ApplyRow(db, id, k, time));
  }

  lemma AliasKept(a: Db, b: Db, alias: Alias)
    requires DbEvolves(a, b) && alias in a.correlations
    ensures alias in b.correlations && b.correlations[alias] == a.correlations[alias]
  {
  }

  /** Insertion changes neither rows nor the aliases that attempts have under their own ids. */
  ghost predicate SameTargets(a: Db, b: Db) {
    && b.deliveries == a.deliveries
    && forall alias: Alias | alias.reference.AttemptReference? ::
         (alias in b.correlations <==> alias in a.correlations) &&
         (alias in a.correlations ==> b.correlations[alias] == a.correlations[alias])
  }

  lemma {:induction false} InsertedTargets(db: Db, instance: Id, events: seq<CallbackEvent>)
    requires InsertEvents(db, instance, events).Some?
    ensures SameTargets(db, InsertEvents(db, instance, events).value)
  {
    if events != [] {
      InsertedTargets(db, instance, events[..|events|-1]);
    }
  }

  lemma SameTarget(a: Db, b: Db, instance: Id, event: CallbackEvent)
    requires SameTargets(a, b)
    ensures EventTarget(b, instance, event) == EventTarget(a, instance, event)
  {
  }
}
