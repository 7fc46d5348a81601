/** The sliding-window ledger: each counted event occurs at one instant and is allocated to the
    scopes it uses; a limit bounds the events of one scope inside one window. */
module Quotas {
  import opened Prelude

  datatype Scope = RecipientScope | ProjectScope | InstanceScope | AccountScope | SharedScope | DeploymentScope

  datatype Kind = Create | Send | Guess | Admission

  datatype Limit = Limit(scope: Scope, scopeId: Id, kind: Kind, maximum: nat, window: Time)

  datatype EventId = OperationEvent(operation: Id) | AttemptEvent(operation: Id, index: nat) | GuessEvent(guess: Id)

  datatype EventKey = EventKey(event: EventId, kind: Kind)

  datatype Allocation = Allocation(scope: Scope, scopeId: Id, kind: Kind, event: EventId)

  datatype Ledger = Ledger(events: map<EventKey, Time>, allocations: set<Allocation>)

  function KeyOf(a: Allocation): EventKey { EventKey(a.event, a.kind) }

  /** Every allocation has its event; a deleted event takes its allocations with it. */
  predicate LedgerValid(l: Ledger) {
    forall a | a in l.allocations :: KeyOf(a) in l.events
  }

  predicate LimitValid(limit: Limit) { 1 <= limit.maximum && 0 < limit.window <= DAY }

  predicate Uses(a: Allocation, limit: Limit) {
    a.scope == limit.scope && a.scopeId == limit.scopeId && a.kind == limit.kind
  }

  // ---------------------------------------------------------------- the queries

  predicate OccursAfter(l: Ledger, a: Allocation, after: Time) {
    KeyOf(a) in l.events && l.events[KeyOf(a)] > after
  }

  /** The events that a limit counts after an instant. */
  function Counted(l: Ledger, limit: Limit, after: Time): set<Allocation> {
    set a | a in l.allocations && Uses(a, limit) && OccursAfter(l, a, after)
  }

  function Occurrence(l: Ledger, a: Allocation): Time {
    if KeyOf(a) in l.events then l.events[KeyOf(a)] else 0
  }

  function Greatest(s: set<Time>): (m: Time)
    requires s != {}
    ensures m in s && forall x | x in s :: x <= m
  {
    GreatestExists(s);
    var m :| m in s && forall x | x in s :: x <= m;
    m
  }

  lemma Member<T>(s: set<T>) returns (x: T)
    requires s != {}
    ensures x in s
  {
    x :| x in s;
  }

  lemma GreatestExists(s: set<Time>)
    requires s != {}
    ensures exists m :: m in s && forall x | x in s :: x <= m
  {
    var m := FindGreatest(s);
  }

  lemma {:induction false} FindGreatest(s: set<Time>) returns (m: Time)
    requires s != {}
    ensures m in s && forall x | x in s :: x <= m
  {
    var x := Member(s);
    var rest := s - {x};
    if rest == {} {
      assert s == {x};
      m := x;
    } else {
      var other := FindGreatest(rest);
      m := Max(x, other);
      forall y | y in s ensures y <= m {
        assert y == x || y in rest;
      }
    }
  }

  function NotBefore(l: Ledger, counted: set<Allocation>, time: Time): set<Allocation> {
    set a | a in counted && Occurrence(l, a) >= time
  }

  /** The instants that at least `rank` of the counted events reach. */
  function Reached(l: Ledger, counted: set<Allocation>, rank: nat): set<Time> {
    set a | a in counted && |NotBefore(l, counted, Occurrence(l, a))| >= rank :: Occurrence(l, a)
  }

  /** `ORDER BY occurred_at DESC OFFSET maximum - 1 LIMIT 1`, plus the window: the latest instant
      that `maximum` of the counted events reach, moved to the end of its window. */
  function BlockedUntil(l: Ledger, limit: Limit, time: Time): Option<Time> {
    var reached := Reached(l, Counted(l, limit, time - limit.window), limit.maximum);
    if reached == {} then None else Some(Greatest(reached) + limit.window)
  }

  function Later(a: Option<Time>, b: Option<Time>): Option<Time> {
    if a.None? then b else if b.None? then a else Some(Max(a.value, b.value))
  }

  /** `quotaRetryAt`: the latest instant over all blocked limits. */
  function RetryAt(l: Ledger, limits: seq<Limit>, time: Time): Option<Time> {
    if limits == [] then None
    else Later(RetryAt(l, limits[..|limits|-1], time), BlockedUntil(l, limits[|limits|-1], time))
  }

  // ----------------------------------------------------------------- the writes

  function CountEvent(l: Ledger, key: EventKey, time: Time): Ledger {
    if key in l.events then l else l.(events := l.events[key := time])
  }

  function Allocate(l: Ledger, a: Allocation): Ledger {
    l.(allocations := l.allocations + {a})
  }

  function CountOne(l: Ledger, limit: Limit, event: EventId, time: Time): Ledger {
    Allocate(CountEvent(l, EventKey(event, limit.kind), time), Allocation(limit.scope, limit.scopeId, limit.kind, event))
  }

  /** `countQuotas`: one event per kind, one allocation per scope of the limits. */
  function Count(l: Ledger, limits: seq<Limit>, event: EventId, time: Time): Ledger {
    if limits == [] then l
    else CountOne(Count(l, limits[..|limits|-1], event, time), limits[|limits|-1], event, time)
  }

  /** `extendAdmission`: the recipient's admission event moves forward, never back. */
  function ExtendAdmission(l: Ledger, recipient: Id, event: EventId, time: Time): Ledger {
    var key := EventKey(event, Admission);
    Allocate(
      l.(events := l.events[key := if key in l.events then Max(l.events[key], time) else time]),
      Allocation(RecipientScope, recipient, Admission, event))
  }

  const DAY: Time := 86400000

  /** Cleanup deletes some events that are at least a day old, with their allocations. */
  predicate Deletable(l: Ledger, doomed: set<EventKey>, time: Time) {
    forall k | k in doomed :: k in l.events && l.events[k] <= time - DAY
  }

  function Cleanup(l: Ledger, doomed: set<EventKey>): Ledger {
    Ledger(
      map k | k in l.events && k !in doomed :: l.events[k],
      set a | a in l.allocations && KeyOf(a) !in doomed)
  }

  // ------------------------------------------------------------------ the limits

  datatype Settings = Settings(
    recipientCreateLimit15m: nat,
    recipientSendLimit15m: nat,
    recipientGuessLimit15m: nat,
    deploymentSendLimit15m: nat,
    deploymentSendLimit24h: nat)

  const QUARTER_HOUR: Time := 900000

  function RecipientLimit(recipient: Id, kind: Kind, maximum: nat): Limit {
    Limit(RecipientScope, recipient, kind, maximum, QUARTER_HOUR)
  }

  function AdmissionLimit(recipient: Id): Limit {
    Limit(RecipientScope, recipient, Admission, 1, 30000)
  }

  function CommonSendLimits(s: Settings, projectLimit15m: nat, projectLimit24h: nat, recipient: Id, project: Id): seq<Limit> {
    [ Limit(ProjectScope, project, Send, projectLimit15m, QUARTER_HOUR),
      Limit(ProjectScope, project, Send, projectLimit24h, DAY),
      RecipientLimit(recipient, Send, s.recipientSendLimit15m),
      Limit(DeploymentScope, 0, Send, s.deploymentSendLimit15m, QUARTER_HOUR),
      Limit(DeploymentScope, 0, Send, s.deploymentSendLimit24h, DAY) ]
  }

  datatype SharedLimit = SharedLimit(scope: Id, sendLimit15m: nat, sendLimit24h: nat)

  function SharedSendLimits(scopes: seq<SharedLimit>): seq<Limit> {
    if scopes == [] then []
    else
      var last := scopes[|scopes|-1];
      SharedSendLimits(scopes[..|scopes|-1]) + [
        Limit(SharedScope, last.scope, Send, last.sendLimit15m, QUARTER_HOUR),
        Limit(SharedScope, last.scope, Send, last.sendLimit24h, DAY)]
  }

  function ProviderSendLimits(instance: Id, account: Id, scopes: seq<SharedLimit>): seq<Limit> {
    [ Limit(InstanceScope, instance, Send, 2147483647, DAY),
      Limit(AccountScope, account, Send, 2147483647, DAY) ] + SharedSendLimits(scopes)
  }

  function GuessLimits(s: Settings, recipient: Id): seq<Limit> {
    [RecipientLimit(recipient, Guess, s.recipientGuessLimit15m)]
  }

  /** What a wrong guess charges, after the check that it passed. */
  function ChargeGuess(l: Ledger, s: Settings, recipient: Id, guess: Id, time: Time): Ledger {
    Count(l, GuessLimits(s, recipient), GuessEvent(guess), time)
  }
}
