/** The ledger bounds every window, reports the exact retry instant and forgets invisibly. */
module QuotaProofs {
  import opened Prelude
  import opened Quotas
  import opened SetFacts

  lemma {:induction false} EarliestExists(l: Ledger, s: set<Allocation>) returns (first: Allocation)
    requires s != {}
    ensures first in s && forall a | a in s :: Occurrence(l, first) <= Occurrence(l, a)
  {
    first :| first in s;
    if s != {first} {
      var other := EarliestExists(l, s - {first});
      if Occurrence(l, other) < Occurrence(l, first) {
        first := other;
      }
    }
  }

  // ------------------------------------------------------------ exact retry times

  /** A limit is blocked exactly when its window holds `maximum` events. */
  lemma BlockedMeansFull(l: Ledger, limit: Limit, time: Time)
    requires LimitValid(limit)
    ensures BlockedUntil(l, limit, time).Some? <==> limit.maximum <= |Counted(l, limit, time - limit.window)|
  {
    var counted := Counted(l, limit, time - limit.window);
    var reached := Reached(l, counted, limit.maximum);
    if reached != {} {
      var t :| t in reached;
      var a :| a in counted && |NotBefore(l, counted, Occurrence(l, a))| >= limit.maximum;
      SubsetCount(NotBefore(l, counted, Occurrence(l, a)), counted);
    }
    if limit.maximum <= |counted| {
      var first := EarliestExists(l, counted);
      assert NotBefore(l, counted, Occurrence(l, first)) == counted;
      assert Occurrence(l, first) in reached;
    }
  }

  /** The reported instant is where the window stops being full, if nothing else is counted. */
  lemma BlockedUntilExact(l: Ledger, limit: Limit, time: Time, later: Time)
    requires LimitValid(limit) && time <= later
    ensures var now := BlockedUntil(l, limit, time);
            BlockedUntil(l, limit, later).Some? <==> now.Some? && later < now.value
  {
    BlockedMeansFull(l, limit, time);
    BlockedMeansFull(l, limit, later);
    var counted := Counted(l, limit, time - limit.window);
    var remaining := Counted(l, limit, later - limit.window);
    SubsetCount(remaining, counted);
    if limit.maximum <= |counted| {
      var reached := Reached(l, counted, limit.maximum);
      var v := Greatest(reached);
      var a :| a in counted && Occurrence(l, a) == v
               && |NotBefore(l, counted, Occurrence(l, a))| >= limit.maximum;
      if later < v + limit.window {
        SubsetCount(NotBefore(l, counted, Occurrence(l, a)), remaining);
      }
      if limit.maximum <= |remaining| {
        var first := EarliestExists(l, remaining);
        SubsetCount(remaining, NotBefore(l, counted, Occurrence(l, first)));
        assert Occurrence(l, first) in reached;
      }
    }
  }

  /** The check fails at every instant before the reported one and passes from that instant on. */
  lemma {:induction false} RetryAtExact(l: Ledger, limits: seq<Limit>, time: Time, later: Time)
    requires forall k | 0 <= k < |limits| :: LimitValid(limits[k])
    requires time <= later
    ensures var now := RetryAt(l, limits, time);
            RetryAt(l, limits, later).Some? <==> now.Some? && later < now.value
  {
    if limits != [] {
      RetryAtExact(l, limits[..|limits|-1], time, later);
      BlockedUntilExact(l, limits[|limits|-1], time, later);
    }
  }

  // ------------------------------------------------------------ what counting does

  ghost predicate SameScope(a: Limit, b: Limit) {
    a.scope == b.scope && a.scopeId == b.scopeId && a.kind == b.kind
  }

  /** Some limit of the list is on the scope that `limit` bounds. */
  ghost predicate Touches(limits: seq<Limit>, limit: Limit) {
    exists k :: 0 <= k < |limits| && SameScope(limits[k], limit)
  }

  function AllocationFor(limit: Limit, event: EventId): Allocation {
    Allocation(limit.scope, limit.scopeId, limit.kind, event)
  }

  /** The event has not been counted before in any kind of the limits. */
  ghost predicate Fresh(l: Ledger, limits: seq<Limit>, event: EventId) {
    forall k | 0 <= k < |limits| :: EventKey(event, limits[k].kind) !in l.events
  }

  ghost predicate Past(l: Ledger, time: Time) {
    forall key | key in l.events :: l.events[key] <= time
  }

  function AllocationsFor(limits: seq<Limit>, event: EventId): set<Allocation> {
    if limits == [] then {}
    else AllocationsFor(limits[..|limits|-1], event) + {AllocationFor(limits[|limits|-1], event)}
  }

  lemma {:induction false} AllocatedWhereTouched(limits: seq<Limit>, event: EventId, a: Allocation)
    ensures a in AllocationsFor(limits, event) <==> exists k :: 0 <= k < |limits| && a == AllocationFor(limits[k], event)
  {
    if limits != [] {
      var n := |limits| - 1;
      AllocatedWhereTouched(limits[..n], event, a);
      if a in AllocationsFor(limits[..n], event) {
        var k :| 0 <= k < n && a == AllocationFor(limits[..n][k], event);
        assert a == AllocationFor(limits[k], event);
      }
      if k :| 0 <= k < |limits| && a == AllocationFor(limits[k], event) {
        if k < n {
          assert limits[..n][k] == limits[k];
        }
      }
    }
  }

  lemma {:induction false} CountShape(l: Ledger, limits: seq<Limit>, event: EventId, time: Time)
    ensures var c := Count(l, limits, event, time);
            && c.allocations == l.allocations + AllocationsFor(limits, event)
            && (forall key | key in l.events :: key in c.events && c.events[key] == l.events[key])
            && (forall key | key in c.events && key !in l.events :: key.event == event && c.events[key] == time)
            && (forall a | a in AllocationsFor(limits, event) :: KeyOf(a) in c.events)
  {
    if limits != [] {
      CountShape(l, limits[..|limits|-1], event, time);
    }
  }

  /** A fresh event adds itself to each window whose scope it uses, and changes no other window. */
  lemma CountAdds(l: Ledger, limits: seq<Limit>, event: EventId, time: Time, limit: Limit, after: Time)
    requires LedgerValid(l) && Fresh(l, limits, event)
    ensures var c := Count(l, limits, event, time);
            && LedgerValid(c)
            && (Touches(limits, limit) && time > after ==>
                  Counted(c, limit, after) == Counted(l, limit, after) + {AllocationFor(limit, event)})
            && (!Touches(limits, limit) || time <= after ==> Counted(c, limit, after) == Counted(l, limit, after))
  {
    CountShape(l, limits, event, time);
    var c := Count(l, limits, event, time);
    forall a | a in AllocationsFor(limits, event)
      ensures KeyOf(a) in c.events && c.events[KeyOf(a)] == time && (Uses(a, limit) ==> Touches(limits, limit) && a == AllocationFor(limit, event))
    {
      AllocatedWhereTouched(limits, event, a);
      var k :| 0 <= k < |limits| && a == AllocationFor(limits[k], event);
      assert Uses(a, limit) ==> SameScope(limits[k], limit);
    }
    if Touches(limits, limit) {
      var k :| 0 <= k < |limits| && SameScope(limits[k], limit);
      assert AllocationFor(limits[k], event) == AllocationFor(limit, event);
      AllocatedWhereTouched(limits, event, AllocationFor(limit, event));
    }
  }

  // ------------------------------------------------------------------ window safety

  function InWindow(l: Ledger, limit: Limit, end: Time): set<Allocation> {
    set a | a in Counted(l, limit, end - limit.window) && Occurrence(l, a) <= end
  }

  /** No window of the limit, wherever it ends, holds more than its maximum. */
  ghost predicate Bounded(l: Ledger, limit: Limit) {
    forall end: Time :: |InWindow(l, limit, end)| <= limit.maximum
  }

  lemma {:induction false} UnblockedMember(l: Ledger, limits: seq<Limit>, time: Time, limit: Limit)
    requires limit in limits && RetryAt(l, limits, time).None?
    ensures BlockedUntil(l, limit, time).None?
  {
    if limit != limits[|limits|-1] {
      UnblockedMember(l, limits[..|limits|-1], time, limit);
    }
  }

  /** A window after the count holds what it held, or what the checked window held and the event. */
  lemma ChargedWindow(l: Ledger, limits: seq<Limit>, event: EventId, time: Time, limit: Limit, end: Time)
    requires LedgerValid(l) && Fresh(l, limits, event) && Past(l, time)
    requires LimitValid(limit) && |InWindow(l, limit, end)| <= limit.maximum
    requires Touches(limits, limit) ==> |Counted(l, limit, time - limit.window)| < limit.maximum
    ensures |InWindow(Count(l, limits, event, time), limit, end)| <= limit.maximum
  {
    var c := Count(l, limits, event, time);
    CountShape(l, limits, event, time);
    CountAdds(l, limits, event, time, limit, end - limit.window);
    var now := InWindow(c, limit, end);
    forall a | a in now && a in Counted(l, limit, end - limit.window)
      ensures Occurrence(c, a) == Occurrence(l, a)
    {}
    if Touches(limits, limit) && end - limit.window < time <= end {
      var full := Counted(l, limit, time - limit.window);
      forall a | a in now ensures a in full + {AllocationFor(limit, event)} {}
      SubsetCount(now, full + {AllocationFor(limit, event)});
    } else {
      forall a | a in now ensures a in InWindow(l, limit, end) {}
      SubsetCount(now, InWindow(l, limit, end));
    }
  }

  lemma ChargeKeepsBound(l: Ledger, limits: seq<Limit>, checked: seq<Limit>, event: EventId, time: Time, limit: Limit)
    requires LedgerValid(l) && Fresh(l, limits, event) && Past(l, time)
    requires LimitValid(limit) && Bounded(l, limit)
    requires RetryAt(l, checked, time).None?
    requires Touches(limits, limit) ==> limit in checked
    ensures Bounded(Count(l, limits, event, time), limit)
  {
    var c := Count(l, limits, event, time);
    if Touches(limits, limit) {
      UnblockedMember(l, checked, time, limit);
      BlockedMeansFull(l, limit, time);
    }
    forall end: Time ensures |InWindow(c, limit, end)| <= limit.maximum {
      ChargedWindow(l, limits, event, time, limit, end);
    }
  }

  lemma ExtendKeepsBound(l: Ledger, recipient: Id, event: EventId, time: Time, limit: Limit)
    requires Bounded(l, limit) && !limit.kind.Admission?
    ensures Bounded(ExtendAdmission(l, recipient, event, time), limit)
  {
    var c := ExtendAdmission(l, recipient, event, time);
    forall end: Time ensures |InWindow(c, limit, end)| <= limit.maximum {
      forall a | a in InWindow(c, limit, end) ensures a in InWindow(l, limit, end) {
        assert a in Counted(c, limit, end - limit.window) && a.kind == limit.kind;
        assert KeyOf(a) != EventKey(event, Admission);
        assert a in Counted(l, limit, end - limit.window);
      }
      SubsetCount(InWindow(c, limit, end), InWindow(l, limit, end));
    }
  }

  lemma CleanupKeepsBound(l: Ledger, doomed: set<EventKey>, limit: Limit)
    requires Bounded(l, limit)
    ensures Bounded(Cleanup(l, doomed), limit)
  {
    var c := Cleanup(l, doomed);
    forall end: Time ensures |InWindow(c, limit, end)| <= limit.maximum {
      forall a | a in InWindow(c, limit, end) ensures a in InWindow(l, limit, end) {
        assert a in Counted(c, limit, end - limit.window);
        assert KeyOf(a) in c.events && c.events[KeyOf(a)] == l.events[KeyOf(a)];
        assert a in Counted(l, limit, end - limit.window);
      }
      SubsetCount(InWindow(c, limit, end), InWindow(l, limit, end));
    }
  }

  // -------------------------------------------------------------------- ledger runs

  /** One locked use of the ledger: a check followed by a count, a dispatch extension, or cleanup. */
  datatype LedgerStep =
    | Charge(limits: seq<Limit>, checked: seq<Limit>, event: EventId, time: Time)
    | Extend(recipient: Id, event: EventId, time: Time)
    | Clean(doomed: set<EventKey>, time: Time)

  /** What callers respect: fresh event ids, a passed check, one recipient per admission event. */
  ghost predicate Permitted(l: Ledger, step: LedgerStep) {
    match step
    case Charge(limits, checked, event, time) => Fresh(l, limits, event) && RetryAt(l, checked, time).None?
    case Extend(recipient, event, _) =>
      forall a | a in l.allocations && KeyOf(a) == EventKey(event, Admission) ::
        a == Allocation(RecipientScope, recipient, Admission, event)
    case Clean(doomed, time) => Deletable(l, doomed, time)
  }

  function NextLedger(l: Ledger, step: LedgerStep): Ledger {
    match step
    case Charge(limits, _, event, time) => Count(l, limits, event, time)
    case Extend(recipient, event, time) => ExtendAdmission(l, recipient, event, time)
    case Clean(doomed, _) => Cleanup(l, doomed)
  }

  const Empty := Ledger(map[], {})

  function RunLedger(steps: seq<LedgerStep>): Ledger {
    if steps == [] then Empty else NextLedger(RunLedger(steps[..|steps|-1]), steps[|steps|-1])
  }

  ghost predicate PermittedRun(steps: seq<LedgerStep>) {
    steps == [] || (PermittedRun(steps[..|steps|-1]) && Permitted(RunLedger(steps[..|steps|-1]), steps[|steps|-1]))
  }

  /** The limit is unchanged throughout: whoever uses its scope has checked this very limit. */
  ghost predicate Enforced(steps: seq<LedgerStep>, limit: Limit) {
    forall k | 0 <= k < |steps| && steps[k].Charge? && Touches(steps[k].limits, limit) :: limit in steps[k].checked
  }

  ghost function LastTime(steps: seq<LedgerStep>): Time {
    if steps == [] then 0 else steps[|steps|-1].time
  }

  ghost predicate ClockMonotone(steps: seq<LedgerStep>) {
    && (forall i, j | 0 <= i < j < |steps| :: steps[i].time <= steps[j].time)
    && (forall i | 0 <= i < |steps| :: 0 <= steps[i].time)
  }

  lemma NextPast(l: Ledger, step: LedgerStep)
    requires Past(l, step.time)
    ensures Past(NextLedger(l, step), step.time)
  {
    if step.Charge? {
      CountShape(l, step.limits, step.event, step.time);
    }
  }

  lemma {:induction false} RunPast(steps: seq<LedgerStep>)
    requires ClockMonotone(steps)
    ensures Past(RunLedger(steps), LastTime(steps))
  {
    if steps != [] {
      RunPast(steps[..|steps|-1]);
      NextPast(RunLedger(steps[..|steps|-1]), steps[|steps|-1]);
    }
  }

  lemma {:induction false} RunLedgerValid(steps: seq<LedgerStep>)
    requires PermittedRun(steps)
    ensures LedgerValid(RunLedger(steps))
  {
    if steps != [] {
      var l := RunLedger(steps[..|steps|-1]);
      RunLedgerValid(steps[..|steps|-1]);
      match steps[|steps|-1]
      case Charge(limits, _, event, time) => CountShape(l, limits, event, time);
      case Extend(_, _, _) =>
      case Clean(_, _) =>
    }
  }

  /** Windows of unchanged create, guess and send limits never overflow, at any instant of any run. */
  lemma {:induction false} WindowSafety(steps: seq<LedgerStep>, limit: Limit)
    requires PermittedRun(steps) && Enforced(steps, limit) && ClockMonotone(steps)
    requires LimitValid(limit) && !limit.kind.Admission?
    ensures Bounded(RunLedger(steps), limit)
  {
    if steps == [] {
      forall end: Time ensures |InWindow(Empty, limit, end)| <= limit.maximum {
        assert InWindow(Empty, limit, end) == {};
      }
    } else {
      var before := steps[..|steps|-1];
      WindowSafety(before, limit);
      RunLedgerValid(before);
      RunPast(before);
      var l := RunLedger(before);
      match steps[|steps|-1]
      case Charge(limits, checked, event, time) => ChargeKeepsBound(l, limits, checked, event, time, limit);
      case Extend(recipient, event, time) => ExtendKeepsBound(l, recipient, event, time, limit);
      case Clean(doomed, time) => CleanupKeepsBound(l, doomed, limit);
    }
  }

  // -------------------------------------------------------------- invisible cleanup

  function WithoutCleanup(steps: seq<LedgerStep>): seq<LedgerStep> {
    if steps == [] then []
    else
      var rest := WithoutCleanup(steps[..|steps|-1]);
      if steps[|steps|-1].Clean? then rest else rest + [steps[|steps|-1]]
  }

  ghost predicate Recent(l: Ledger, a: Allocation, time: Time) {
    a in l.allocations && OccursAfter(l, a, time - DAY)
  }

  /** `pruned` has forgotten nothing that a window ending at `time` or later can see. */
  ghost predicate Agrees(full: Ledger, pruned: Ledger, time: Time) {
    && (forall key | key in pruned.events :: key in full.events && pruned.events[key] == full.events[key])
    && (forall key | key in full.events && full.events[key] > time - DAY :: key in pruned.events)
    && pruned.allocations <= full.allocations
    && (forall a | Recent(full, a, time) :: a in pruned.allocations)
  }

  lemma AgreeingDecisions(full: Ledger, pruned: Ledger, time: Time, limit: Limit, now: Time)
    requires Agrees(full, pruned, time) && time <= now && limit.window <= DAY
    ensures BlockedUntil(full, limit, now) == BlockedUntil(pruned, limit, now)
  {
    SameCounted(full, pruned, time, limit, now - limit.window);
    SameBlock(full, pruned, limit, now);
  }

  lemma SameBlock(l: Ledger, m: Ledger, limit: Limit, now: Time)
    requires Counted(l, limit, now - limit.window) == Counted(m, limit, now - limit.window)
    requires forall a | a in Counted(l, limit, now - limit.window) :: Occurrence(l, a) == Occurrence(m, a)
    ensures BlockedUntil(l, limit, now) == BlockedUntil(m, limit, now)
  {
    hide Reached, Counted;
    SameReached(l, m, Counted(l, limit, now - limit.window), limit.maximum);
  }

  lemma SameCounted(full: Ledger, pruned: Ledger, time: Time, limit: Limit, after: Time)
    requires Agrees(full, pruned, time) && time - DAY <= after
    ensures Counted(full, limit, after) == Counted(pruned, limit, after)
    ensures forall a | a in Counted(full, limit, after) :: Occurrence(full, a) == Occurrence(pruned, a)
  {
    forall a | a in Counted(full, limit, after)
      ensures a in Counted(pruned, limit, after) && Occurrence(full, a) == Occurrence(pruned, a)
    {
      assert Recent(full, a, time);
    }
    forall a | a in Counted(pruned, limit, after) ensures a in Counted(full, limit, after) {}
  }

  lemma SameReached(l: Ledger, m: Ledger, counted: set<Allocation>, rank: nat)
    requires forall a | a in counted :: Occurrence(l, a) == Occurrence(m, a)
    ensures Reached(l, counted, rank) == Reached(m, counted, rank)
  {
    forall t ensures NotBefore(l, counted, t) == NotBefore(m, counted, t) {}
    forall t | t in Reached(l, counted, rank) ensures t in Reached(m, counted, rank) {
      var a :| a in counted && |NotBefore(l, counted, Occurrence(l, a))| >= rank && t == Occurrence(l, a);
      assert |NotBefore(m, counted, Occurrence(m, a))| >= rank;
    }
    forall t | t in Reached(m, counted, rank) ensures t in Reached(l, counted, rank) {
      var a :| a in counted && |NotBefore(m, counted, Occurrence(m, a))| >= rank && t == Occurrence(m, a);
      assert |NotBefore(l, counted, Occurrence(l, a))| >= rank;
    }
  }

  lemma {:induction false} AgreeingChecks(full: Ledger, pruned: Ledger, time: Time, limits: seq<Limit>, now: Time)
    requires Agrees(full, pruned, time) && time <= now
    requires forall k | 0 <= k < |limits| :: limits[k].window <= DAY
    ensures RetryAt(full, limits, now) == RetryAt(pruned, limits, now)
  {
    if limits != [] {
      AgreeingChecks(full, pruned, time, limits[..|limits|-1], now);
      AgreeingDecisions(full, pruned, time, limits[|limits|-1], now);
    }
  }

  ghost predicate LimitsValid(step: LedgerStep) {
    step.Charge? ==> forall k | 0 <= k < |step.checked| :: LimitValid(step.checked[k])
  }

  lemma ChargeAgrees(full: Ledger, pruned: Ledger, time: Time, limits: seq<Limit>, event: EventId, now: Time)
    requires Agrees(full, pruned, time) && time <= now && Fresh(full, limits, event)
    requires LedgerValid(full) && LedgerValid(pruned)
    ensures Fresh(pruned, limits, event)
    ensures Agrees(Count(full, limits, event, now), Count(pruned, limits, event, now), now)
  {
    CountShape(full, limits, event, now);
    CountShape(pruned, limits, event, now);
    CountedKeys(full, limits, event, now);
    CountedKeys(pruned, limits, event, now);
    var f := Count(full, limits, event, now);
    var p := Count(pruned, limits, event, now);
    forall a | Recent(f, a, now) ensures a in p.allocations {
      if a !in AllocationsFor(limits, event) {
        assert a in full.allocations && KeyOf(a) in full.events;
        assert Recent(full, a, time);
      }
    }
  }

  /** The new keys are those of the limits' kinds. */
  lemma {:induction false} CountedKeys(l: Ledger, limits: seq<Limit>, event: EventId, time: Time)
    ensures forall key: EventKey :: key in Count(l, limits, event, time).events <==>
              key in l.events || (key.event == event && exists k :: 0 <= k < |limits| && limits[k].kind == key.kind)
  {
    if limits != [] {
      var n := |limits| - 1;
      CountedKeys(l, limits[..n], event, time);
      forall key: EventKey | key.event == event
        ensures (exists k :: 0 <= k < |limits| && limits[k].kind == key.kind) <==>
                (exists k :: 0 <= k < n && limits[..n][k].kind == key.kind) || limits[n].kind == key.kind
      {
        if k :| 0 <= k < n && limits[..n][k].kind == key.kind {
          assert limits[k].kind == key.kind;
        }
        if k :| 0 <= k < |limits| && limits[k].kind == key.kind {
          assert k == n || limits[..n][k].kind == key.kind;
        }
      }
    }
  }

  lemma ExtendAgrees(full: Ledger, pruned: Ledger, time: Time, recipient: Id, event: EventId, now: Time)
    requires Agrees(full, pruned, time) && time <= now
    requires Permitted(full, Extend(recipient, event, now))
    ensures Permitted(pruned, Extend(recipient, event, now))
    ensures Agrees(ExtendAdmission(full, recipient, event, now), ExtendAdmission(pruned, recipient, event, now), now)
  {
    var f := ExtendAdmission(full, recipient, event, now);
    var p := ExtendAdmission(pruned, recipient, event, now);
    forall a | Recent(f, a, now) ensures a in p.allocations {
      if KeyOf(a) != EventKey(event, Admission) {
        assert Recent(full, a, time);
      }
    }
  }

  lemma CleanAgrees(full: Ledger, pruned: Ledger, time: Time, doomed: set<EventKey>, now: Time)
    requires Agrees(full, pruned, time) && time <= now && Deletable(pruned, doomed, now)
    ensures Agrees(full, Cleanup(pruned, doomed), now)
  {
    var p := Cleanup(pruned, doomed);
    forall a | Recent(full, a, now) ensures a in p.allocations {
      assert Recent(full, a, time);
    }
  }

  ghost predicate CleansDeletable(steps: seq<LedgerStep>) {
    steps == [] ||
    (var last := steps[|steps|-1];
     && CleansDeletable(steps[..|steps|-1])
     && (last.Clean? ==> Deletable(RunLedger(steps[..|steps|-1]), last.doomed, last.time)))
  }

  /** Deleting day-old events never changes a later decision: if the run without cleanup is permitted
      then so is the run with it, and every check from the last step on has the same answer in both. */
  lemma {:induction false} CleanupInvisible(steps: seq<LedgerStep>)
    requires PermittedRun(WithoutCleanup(steps)) && ClockMonotone(steps) && CleansDeletable(steps)
    requires forall k | 0 <= k < |steps| :: LimitsValid(steps[k])
    ensures PermittedRun(steps)
    ensures Past(RunLedger(WithoutCleanup(steps)), LastTime(steps))
    ensures Agrees(RunLedger(WithoutCleanup(steps)), RunLedger(steps), LastTime(steps))
    ensures forall limits: seq<Limit>, now: Time |
              LastTime(steps) <= now && (forall k | 0 <= k < |limits| :: LimitValid(limits[k])) ::
              RetryAt(RunLedger(WithoutCleanup(steps)), limits, now) == RetryAt(RunLedger(steps), limits, now)
  {
    if steps != [] {
      var before := steps[..|steps|-1];
      var last := steps[|steps|-1];
      if !last.Clean? {
        assert WithoutCleanup(steps)[..|WithoutCleanup(steps)|-1] == WithoutCleanup(before);
      }
      CleanupInvisible(before);
      CleanupStep(before, last);
    }
    forall limits: seq<Limit>, now: Time |
      LastTime(steps) <= now && (forall k | 0 <= k < |limits| :: LimitValid(limits[k]))
      ensures RetryAt(RunLedger(WithoutCleanup(steps)), limits, now) == RetryAt(RunLedger(steps), limits, now)
    {
      AgreeingChecks(RunLedger(WithoutCleanup(steps)), RunLedger(steps), LastTime(steps), limits, now);
    }
  }

  lemma CleanupStep(before: seq<LedgerStep>, last: LedgerStep)
    requires PermittedRun(before) && PermittedRun(WithoutCleanup(before))
    requires Agrees(RunLedger(WithoutCleanup(before)), RunLedger(before), LastTime(before))
    requires LimitsValid(last) && LastTime(before) <= last.time
    requires Past(RunLedger(WithoutCleanup(before)), LastTime(before))
    requires if last.Clean? then Deletable(RunLedger(before), last.doomed, last.time)
             else Permitted(RunLedger(WithoutCleanup(before)), last)
    ensures Permitted(RunLedger(before), last)
    ensures var full := RunLedger(WithoutCleanup(before));
            var next := if last.Clean? then full else NextLedger(full, last);
            Agrees(next, NextLedger(RunLedger(before), last), last.time) && Past(next, last.time)
  {
    NextPast(RunLedger(WithoutCleanup(before)), last);
    RunLedgerValid(before);
    RunLedgerValid(WithoutCleanup(before));
    var full := RunLedger(WithoutCleanup(before));
    var pruned := RunLedger(before);
    match last
    case Charge(limits, checked, event, now) =>
      ChargeAgrees(full, pruned, LastTime(before), limits, event, now);
      AgreeingChecks(full, pruned, LastTime(before), checked, now);
    case Extend(recipient, event, now) => ExtendAgrees(full, pruned, LastTime(before), recipient, event, now);
    case Clean(doomed, now) => CleanAgrees(full, pruned, LastTime(before), doomed, now);
  }
}
