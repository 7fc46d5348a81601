/** Webhook notifications: claims are leases numbered by an attempt counter, and the number fences what a worker may
    record about the claim it was given. */
module Notifications {
  import opened Prelude

  const AttemptLimit := 12
  const Lease: Time := 30_000

  datatype State = Pending | Delivering | Delivered | Failed

  datatype Failure = TransportError | HttpError | WorkerRecovery

  datatype Row = Row(
    state: State,
    attempts: nat,
    nextAttemptAt: Time,
    leaseUntil: Option<Time>,
    deliveredAt: Option<Time>,
    lastStatus: Option<int>,
    lastFailure: Option<Failure>)

  /** What happened to a row, oldest first: the model's history. */
  datatype Fact =
    | Claimed(attempt: nat, at: Time)
    | Confirmed(attempt: nat, at: Time)
    | Postponed(attempt: nat, at: Time)
    | Exhausted(at: Time)
    | Replayed(at: Time)

  datatype Notification = Notification(row: Row, trail: seq<Fact>)

  function Queued(now: Time): Row {
    Row(Pending, 0, now, None, None, None, None)
  }

  // ---------------------------------------------------------------------- transitions

  function Power(n: nat): (p: nat)
    ensures p >= 1
  {
    if n == 0 then 1 else 2 * Power(n - 1)
  }

  /** Five seconds, doubled with each attempt, at most an hour. */
  function Backoff(attempt: nat): (wait: Time)
    ensures 0 < wait <= 3_600_000
  {
    if attempt == 0 then 2_500 else Min(3600, 5 * Power(attempt - 1)) * 1000
  }

  predicate LeaseOver(row: Row, now: Time) {
    row.leaseUntil.Some? && row.leaseUntil.value <= now
  }

  predicate Claimable(row: Row, now: Time) {
    && row.attempts < AttemptLimit
    && ((row.state == Pending && row.nextAttemptAt <= now) || (row.state == Delivering && LeaseOver(row, now)))
  }

  function Claim(row: Row, now: Time): Row {
    if Claimable(row, now) then row.(state := Delivering, attempts := row.attempts + 1, leaseUntil := Some(now + Lease)) else row
  }

  predicate Succeeded(status: Option<int>) {
    status.Some? && 200 <= status.value < 300
  }

  function Outcome(attempt: nat, status: Option<int>): State {
    if Succeeded(status) then Delivered else if attempt >= AttemptLimit then Failed else Pending
  }

  predicate Current(row: Row, attempt: nat) {
    row.state == Delivering && row.attempts == attempt
  }

  function Finish(row: Row, attempt: nat, status: Option<int>, now: Time): Row {
    if !Current(row, attempt) then row
    else Row(Outcome(attempt, status), row.attempts, now + Backoff(attempt), None,
             if Succeeded(status) then Some(now) else None, status,
             if Succeeded(status) then None else if status.None? then Some(TransportError) else Some(HttpError))
  }

  predicate Abandoned(row: Row, now: Time) {
    row.state == Delivering && LeaseOver(row, now) && row.attempts >= AttemptLimit
  }

  function Recover(row: Row, now: Time): Row {
    if Abandoned(row, now) then row.(state := Failed, leaseUntil := None, lastFailure := Some(WorkerRecovery)) else row
  }

  /** The rows recovery queues again. */
  predicate Due(row: Row, now: Time) {
    (row.state == Pending && row.nextAttemptAt <= now) || (row.state == Delivering && LeaseOver(row, now))
  }

  function Replay(row: Row, now: Time): Row {
    if row.state == Failed then row.(state := Pending, attempts := 0, leaseUntil := None, nextAttemptAt := now) else row
  }

  /** Duplicate jobs, crashed workers, late finishers and operators choose the steps. */
  datatype Step =
    | ClaimStep(now: Time)
    | FinishStep(attempt: nat, status: Option<int>, now: Time)
    | RecoverStep(now: Time)
    | ReplayStep(now: Time)

  function NextRow(row: Row, step: Step): Row {
    match step
    case ClaimStep(now) => Claim(row, now)
    case FinishStep(attempt, status, now) => Finish(row, attempt, status, now)
    case RecoverStep(now) => Recover(row, now)
    case ReplayStep(now) => Replay(row, now)
  }

  function FactsOf(row: Row, step: Step): seq<Fact> {
    match step
    case ClaimStep(now) => if Claimable(row, now) then [Claimed(row.attempts + 1, now)] else []
    case FinishStep(attempt, status, now) =>
      if !Current(row, attempt) then []
      else (match Outcome(attempt, status)
            case Delivered => [Confirmed(attempt, now)]
            case Failed => [Exhausted(now)]
            case _ => [Postponed(attempt, now)])
    case RecoverStep(now) => if Abandoned(row, now) then [Exhausted(now)] else []
    case ReplayStep(now) => if row.state == Failed then [Replayed(now)] else []
  }

  function Next(n: Notification, step: Step): Notification {
    Notification(NextRow(n.row, step), n.trail + FactsOf(n.row, step))
  }

  function Run(start: Time, steps: seq<Step>): Notification {
    if steps == [] then Notification(Queued(start), [])
    else Next(Run(start, steps[..|steps|-1]), steps[|steps|-1])
  }

  // ------------------------------------------------------------------------ invariant

  /** How many claims were given since the last replay. */
  function Claims(trail: seq<Fact>): nat {
    if trail == [] || trail[|trail|-1].Replayed? then 0
    else Claims(trail[..|trail|-1]) + if trail[|trail|-1].Claimed? then 1 else 0
  }

  /** The state is what the last fact left. */
  function StateAfter(trail: seq<Fact>): State {
    if trail == [] then Pending
    else match trail[|trail|-1]
         case Claimed(_, _) => Delivering
         case Confirmed(_, _) => Delivered
         case Exhausted(_) => Failed
         case _ => Pending
  }

  /** The instant before which no further claim is given. */
  function ClaimableFrom(start: Time, trail: seq<Fact>): Time {
    if trail == [] then start
    else match trail[|trail|-1]
         case Claimed(_, at) => at + Lease
         case Postponed(attempt, at) => at + Backoff(attempt)
         case f => f.at
  }

  predicate Sound(start: Time, n: Notification) {
    && n.row.state == StateAfter(n.trail)
    && n.row.attempts == Claims(n.trail) <= AttemptLimit
    && (n.row.state == Pending ==> n.row.attempts < AttemptLimit && n.row.nextAttemptAt == ClaimableFrom(start, n.trail))
    && (n.row.state == Failed ==> n.row.attempts == AttemptLimit)
    && n.row.leaseUntil == (if n.row.state == Delivering then Some(ClaimableFrom(start, n.trail)) else None)
  }

  /** A claim is numbered by its place since the last replay and respects the lease or the back-off before it. */
  predicate InOrderAt(start: Time, trail: seq<Fact>, k: nat)
    requires k < |trail|
  {
    trail[k].Claimed? ==>
      && trail[k].attempt == Claims(trail[..k + 1]) <= AttemptLimit
      && ClaimableFrom(start, trail[..k]) <= trail[k].at
      && StateAfter(trail[..k]) in {Pending, Delivering}
  }

  predicate ClaimsInOrder(start: Time, trail: seq<Fact>) {
    forall k | 0 <= k < |trail| :: InOrderAt(start, trail, k)
  }

  lemma PrefixAt(start: Time, trail: seq<Fact>, j: nat, k: nat)
    requires k < j <= |trail|
    ensures InOrderAt(start, trail[..j], k) <==> InOrderAt(start, trail, k)
  {
    assert trail[..j][..k] == trail[..k] && trail[..j][..k + 1] == trail[..k + 1];
  }

  lemma NextSound(start: Time, n: Notification, step: Step)
    requires Sound(start, n)
    ensures Sound(start, Next(n, step))
  {
    var next := Next(n, step);
    if next.trail != n.trail {
      assert next.trail[..|next.trail|-1] == n.trail;
    }
  }

  lemma OrderExtends(start: Time, trail: seq<Fact>, fact: Fact)
    requires ClaimsInOrder(start, trail)
    requires fact.Claimed? ==>
      && fact.attempt == Claims(trail) + 1 <= AttemptLimit
      && ClaimableFrom(start, trail) <= fact.at
      && StateAfter(trail) in {Pending, Delivering}
    ensures ClaimsInOrder(start, trail + [fact])
  {
    var next := trail + [fact];
    assert next[..|trail|] == trail && next[..|trail| + 1] == next;
    forall k | 0 <= k < |next|
      ensures InOrderAt(start, next, k)
    {
      if k < |trail| { PrefixAt(start, next, |trail|, k); }
    }
  }

  lemma NextInOrder(start: Time, n: Notification, step: Step)
    requires Sound(start, n) && ClaimsInOrder(start, n.trail)
    ensures ClaimsInOrder(start, Next(n, step).trail)
  {
    var facts := FactsOf(n.row, step);
    if facts == [] {
      assert n.trail + facts == n.trail;
    } else {
      assert facts == [facts[0]];
      OrderExtends(start, n.trail, facts[0]);
    }
  }

  lemma {:induction false} RunKeeps(start: Time, steps: seq<Step>)
    ensures Sound(start, Run(start, steps)) && ClaimsInOrder(start, Run(start, steps).trail)
  {
    if steps != [] {
      RunKeeps(start, steps[..|steps|-1]);
      NextSound(start, Run(start, steps[..|steps|-1]), steps[|steps|-1]);
      NextInOrder(start, Run(start, steps[..|steps|-1]), steps[|steps|-1]);
    }
  }

  // ---------------------------------------------------------------------- properties

  predicate NoReplay(facts: seq<Fact>) {
    forall k | 0 <= k < |facts| :: !facts[k].Replayed?
  }

  function CountClaims(facts: seq<Fact>): nat {
    if facts == [] then 0 else CountClaims(facts[..|facts|-1]) + if facts[|facts|-1].Claimed? then 1 else 0
  }

  lemma {:induction false} ClaimsSplit(trail: seq<Fact>, i: nat)
    requires i <= |trail| && NoReplay(trail[i..])
    ensures Claims(trail) == Claims(trail[..i]) + CountClaims(trail[i..])
  {
    if i < |trail| {
      var init := trail[..|trail|-1];
      assert init[i..] == trail[i..][..|trail[i..]| - 1] && init[..i] == trail[..i];
      assert trail[|trail|-1] == trail[i..][|trail[i..]| - 1];
      ClaimsSplit(init, i);
    } else {
      assert trail[..i] == trail;
    }
  }

  lemma PrefixInOrder(start: Time, trail: seq<Fact>, j: nat)
    requires j <= |trail| && ClaimsInOrder(start, trail)
    ensures ClaimsInOrder(start, trail[..j])
  {
    forall k | 0 <= k < j
      ensures InOrderAt(start, trail[..j], k)
    {
      PrefixAt(start, trail, j, k);
    }
  }

  lemma {:induction false} ClaimsBounded(start: Time, trail: seq<Fact>)
    requires ClaimsInOrder(start, trail)
    ensures Claims(trail) <= AttemptLimit
  {
    if trail != [] {
      var last := |trail| - 1;
      PrefixInOrder(start, trail, last);
      ClaimsBounded(start, trail[..last]);
      assert InOrderAt(start, trail, last) && trail[..last + 1] == trail;
    }
  }

  /** However jobs are duplicated, lost or late: no stretch of the history without a replay holds more than twelve
      claims. */
  lemma AtMostTwelveClaims(start: Time, steps: seq<Step>, i: nat, j: nat)
    requires i <= j <= |Run(start, steps).trail| && NoReplay(Run(start, steps).trail[i..j])
    ensures CountClaims(Run(start, steps).trail[i..j]) <= AttemptLimit
  {
    var trail := Run(start, steps).trail;
    RunKeeps(start, steps);
    PrefixInOrder(start, trail, j);
    ClaimsBounded(start, trail[..j]);
    assert trail[..j][i..] == trail[i..j];
    ClaimsSplit(trail[..j], i);
  }

  /** Over any history, replays included, a finisher acts exactly when the last thing that happened is a claim of its
      number. */
  lemma FinisherActsExactlyOnItsNumber(start: Time, steps: seq<Step>, attempt: nat, status: Option<int>, now: Time)
    ensures var n := Run(start, steps);
            Finish(n.row, attempt, status, now) != n.row <==>
              n.trail != [] && n.trail[|n.trail|-1].Claimed? && n.trail[|n.trail|-1].attempt == attempt
  {
    var n := Run(start, steps);
    RunKeeps(start, steps);
    if n.trail != [] {
      assert InOrderAt(start, n.trail, |n.trail| - 1);
      assert n.trail[..|n.trail|-1 + 1] == n.trail;
    }
  }

  lemma LaterClaimsCountMore(trail: seq<Fact>, i: nat)
    requires i < |trail| - 1 && trail[|trail|-1].Claimed? && NoReplay(trail[i..])
    ensures Claims(trail[..i + 1]) < Claims(trail)
  {
    var rest := trail[i + 1..];
    forall k | 0 <= k < |rest|
      ensures rest[k] == trail[i..][k + 1]
    {
    }
    assert rest[|rest|-1] == trail[|trail|-1];
    ClaimsSplit(trail, i + 1);
  }

  /** Between replays the counter fences exactly: the holder of a claim changes the row if and only if nothing has
      happened to the row since its claim. */
  lemma FinisherActsExactlyWhenLast(start: Time, steps: seq<Step>, i: nat, status: Option<int>, now: Time)
    requires i < |Run(start, steps).trail| && Run(start, steps).trail[i].Claimed?
    requires NoReplay(Run(start, steps).trail[i..])
    ensures var n := Run(start, steps);
            Finish(n.row, n.trail[i].attempt, status, now) != n.row <==> i == |n.trail| - 1
  {
    var trail := Run(start, steps).trail;
    RunKeeps(start, steps);
    FinisherActsExactlyOnItsNumber(start, steps, trail[i].attempt, status, now);
    var last := |trail| - 1;
    assert InOrderAt(start, trail, i);
    if i < last && trail[last].Claimed? {
      assert InOrderAt(start, trail, last);
      assert trail[..last + 1] == trail;
      LaterClaimsCountMore(trail, i);
    }
  }

  function Renewals(count: nat): seq<Step> {
    if count == 0 then [] else Renewals(count - 1) + [ClaimStep((count - 1) * Lease)]
  }

  lemma {:induction false} RenewalsClaim(count: nat)
    requires 1 <= count <= AttemptLimit
    ensures var n := Run(0, Renewals(count));
            && n.row == Row(Delivering, count, 0, Some(count * Lease), None, None, None)
            && |n.trail| == count && n.trail[0] == Claimed(1, 0)
  {
    var steps := Renewals(count);
    assert steps[..|steps|-1] == Renewals(count - 1);
    if count > 1 {
      RenewalsClaim(count - 1);
    }
  }

  /** Twelve claims run out, recovery gives up, an operator replays, and a new worker claims. */
  function Reopened(): seq<Step> {
    Renewals(12) + [RecoverStep(12 * Lease)] + [ReplayStep(12 * Lease)] + [ClaimStep(12 * Lease)]
  }

  lemma RunSnoc(start: Time, steps: seq<Step>, step: Step)
    ensures Run(start, steps + [step]) == Next(Run(start, steps), step)
  {
    assert (steps + [step])[..|steps|] == steps;
  }

  /** A replay resets the counter, so the number alone does not fence across one: the first worker, long given up and
      replayed over, still records its outcome on the claim another worker holds. */
  lemma ReplayReopensTheFence()
    ensures var n := Run(0, Reopened());
            && |n.trail| == 15 && n.trail[0] == Claimed(1, 0) && n.trail[14] == Claimed(1, 12 * Lease)
            && Finish(n.row, n.trail[0].attempt, Some(200), 12 * Lease).state == Delivered
  {
    hide Run, Renewals;
    var one := Renewals(12) + [RecoverStep(12 * Lease)];
    RenewalsClaim(12);
    RunSnoc(0, Renewals(12), RecoverStep(12 * Lease));
    RunSnoc(0, one, ReplayStep(12 * Lease));
    RunSnoc(0, one + [ReplayStep(12 * Lease)], ClaimStep(12 * Lease));
  }

  function Continue(n: Notification, steps: seq<Step>): Notification {
    if steps == [] then n else Next(Continue(n, steps[..|steps|-1]), steps[|steps|-1])
  }

  /** Nothing changes a delivered notification, not even a replay. */
  lemma {:induction false} DeliveredIsAbsorbing(n: Notification, steps: seq<Step>)
    requires n.row.state == Delivered
    ensures Continue(n, steps) == n
  {
    if steps != [] {
      DeliveredIsAbsorbing(n, steps[..|steps|-1]);
    }
  }

  /** Failure is reached only with every attempt used, and recovery queues exactly the rows a claim would take. */
  lemma FailedOnlyWhenExhausted(start: Time, steps: seq<Step>)
    ensures var row := Run(start, steps).row;
            && (row.state == Failed ==> row.attempts == AttemptLimit)
            && forall now :: Due(Recover(row, now), now) <==> Claimable(Recover(row, now), now)
  {
    RunKeeps(start, steps);
  }

  /** A claim waits for the lease of the claim before it, or for the back-off of the failure before it; after a delivery
      or an exhausted failure none is given without a replay. */
  lemma ClaimsAreSpaced(start: Time, steps: seq<Step>, k: nat)
    requires 0 < k < |Run(start, steps).trail| && Run(start, steps).trail[k].Claimed?
    ensures var trail := Run(start, steps).trail;
            match trail[k - 1]
            case Claimed(_, at) => trail[k].at >= at + 30_000
            case Postponed(attempt, at) => trail[k].at >= at + Backoff(attempt)
            case Replayed(at) => trail[k].at >= at && trail[k].attempt == 1
            case _ => false
  {
    var trail := Run(start, steps).trail;
    RunKeeps(start, steps);
    hide Run;
    assert InOrderAt(start, trail, k);
    assert trail[..k][|trail[..k]| - 1] == trail[k - 1];
    assert trail[..k + 1][..k] == trail[..k] && trail[..k + 1][k] == trail[k];
    assert trail[k - 1].Replayed? ==> Claims(trail[..k]) == 0;
  }

  // ------------------------------------------------------------------------- the table

  class NotificationTable {
    var rows: map<Id, Row>

    /** `claim`: the number of the claim, if one is given. */
    method ClaimRow(id: Id, now: Time) returns (claimed: Option<nat>)
      modifies this
      ensures id !in old(rows) ==> rows == old(rows) && claimed == None
      ensures id in old(rows) ==>
                && rows == old(rows)[id := Claim(old(rows)[id], now)]
                && claimed == if Claimable(old(rows)[id], now) then Some(rows[id].attempts) else None
    {
      if id !in rows || rows[id].attempts >= AttemptLimit {
        return None;
      }
      var row := rows[id];
      var due := row.state == Pending && row.nextAttemptAt <= now;
      var lost := row.state == Delivering && row.leaseUntil.Some? && row.leaseUntil.value <= now;
      if !due && !lost {
        return None;
      }
      rows := rows[id := row.(state := Delivering, attempts := row.attempts + 1, leaseUntil := Some(now + Lease))];
      return Some(row.attempts + 1);
    }

    /** `finish`: whether the row is queued again, and when. */
    method FinishRow(id: Id, attempt: nat, status: Option<int>, now: Time) returns (again: Option<Time>)
      modifies this
      ensures id !in old(rows) ==> rows == old(rows) && again == None
      ensures id in old(rows) ==>
                && rows == old(rows)[id := Finish(old(rows)[id], attempt, status, now)]
                && (again.Some? <==> Current(old(rows)[id], attempt) && rows[id].state == Pending)
                && (again.Some? ==> again.value == rows[id].nextAttemptAt)
    {
      var succeeded := status.Some? && 200 <= status.value < 300;
      var state := if succeeded then Delivered else if attempt >= AttemptLimit then Failed else Pending;
      var next := now + Backoff(attempt);
      if id !in rows || rows[id].state != Delivering || rows[id].attempts != attempt {
        return None;
      }
      rows := rows[id := Row(state, attempt, next, None,
        if succeeded then Some(now) else None, status,
        if succeeded then None else if status.None? then Some(TransportError) else Some(HttpError))];
      return if state == Pending then Some(next) else None;
    }

    /** `recoverNotifications`: fails what was abandoned, then queues what is due. */
    method RecoverRows(now: Time) returns (due: set<Id>)
      modifies this
      ensures rows == map id | id in old(rows) :: Recover(old(rows)[id], now)
      ensures due == set id | id in rows && Due(rows[id], now)
    {
      rows := map id | id in rows ::
        if rows[id].state == Delivering && LeaseOver(rows[id], now) && rows[id].attempts >= AttemptLimit
        then rows[id].(state := Failed, leaseUntil := None, lastFailure := Some(WorkerRecovery))
        else rows[id];
      due := set id | id in rows && Due(rows[id], now);
    }

    method ReplayRow(id: Id, now: Time) returns (found: bool)
      modifies this
      ensures found <==> id in old(rows) && old(rows)[id].state == Failed
      ensures rows == if id in old(rows) then old(rows)[id := Replay(old(rows)[id], now)] else old(rows)
    {
      found := id in rows && rows[id].state == Failed;
      if found {
        rows := rows[id := rows[id].(state := Pending, attempts := 0, leaseUntil := None, nextAttemptAt := now)];
      }
    }
  }
}
