/** Idempotent creation: a caller looks for a receipt, prepares outside any transaction, and looks again in the
    transaction that creates the operation and its receipt. */
module Creation {
  import opened Prelude

  datatype Capability = Managed | External

  /** A request identity digests the name of the call, so an identity belongs to one capability. */
  datatype Key = Key(capability: Capability, identity: Id)

  /** `codeFingerprint` is kept while the operation is live. */
  datatype Receipt = Receipt(
    operation: Id,
    fingerprint: Id,
    codeFingerprint: Option<Id>,
    body: Id,
    retainUntil: Time)

  /** `live` is prepared or active; `busy` says that an attempt is pending or dispatching. */
  datatype Operation = Operation(key: Key, live: bool, busy: bool, expiresAt: Time)

  datatype Request = Request(key: Key, fingerprint: Id, code: Option<Id>)

  datatype Answer = Answer(key: Key, operation: Id, body: Id)

  /** `answers` is the history of what callers were told; `bodies` what each operation's creator stored. */
  datatype Store = Store(
    receipts: map<Key, Receipt>,
    operations: map<Id, Operation>,
    answers: seq<Answer>,
    bodies: map<Id, Id>)

  datatype Found = Missing | Conflicts | Replayed(body: Id) | Rejected | Created(operation: Id)

  const Day: Time := 86_400_000

  function Retention(capability: Capability): Time {
    if capability == External then 7 * Day else Day
  }

  // ---------------------------------------------------------------------- transitions

  function WithoutCode(receipts: map<Key, Receipt>, operation: Id): map<Key, Receipt> {
    map key | key in receipts ::
      if receipts[key].operation == operation then receipts[key].(codeFingerprint := None) else receipts[key]
  }

  /** Ending an operation suppresses what is pending and erases its code fingerprints; what is dispatching goes on. */
  function EndOperation(s: Store, id: Id, dispatching: bool): Store {
    if id !in s.operations || !s.operations[id].live then s
    else s.(
      operations := s.operations[id := s.operations[id].(live := false, busy := s.operations[id].busy && dispatching)],
      receipts := WithoutCode(s.receipts, id))
  }

  /** Only external requests expire the operation of their receipt before they compare with it. */
  function ExpireRetained(s: Store, key: Key, dispatching: bool, time: Time): Store {
    if key.capability == External && key in s.receipts && s.receipts[key].operation in s.operations
       && s.operations[s.receipts[key].operation].expiresAt <= time
    then EndOperation(s, s.receipts[key].operation, dispatching) else s
  }

  function Find(s: Store, request: Request): Found {
    if request.key !in s.receipts then Missing
    else
      var r := s.receipts[request.key];
      if r.fingerprint != request.fingerprint then Conflicts
      else if r.codeFingerprint.Some? && r.codeFingerprint != request.code then Conflicts
      else Replayed(r.body)
  }

  function Tell(s: Store, key: Key, operation: Id, body: Id): Store {
    s.(answers := s.answers + [Answer(key, operation, body)])
  }

  function Replay(s: Store, request: Request, dispatching: bool, time: Time): (Store, Found) {
    var e := ExpireRetained(s, request.key, dispatching, time);
    var found := Find(e, request);
    (if found.Replayed? then Tell(e, request.key, e.receipts[request.key].operation, found.body) else e, found)
  }

  /** The first transaction. A rejection commits for external requests and rolls back for managed ones. */
  function Check(s: Store, request: Request, dispatching: bool, projectActive: bool, time: Time): (Store, Found) {
    var (replayed, found) := Replay(s, request, dispatching, time);
    match found
    case Missing => (replayed, if projectActive then Missing else Rejected)
    case Conflicts => (if request.key.capability == External then replayed else s, Conflicts)
    case _ => (replayed, found)
  }

  /** The second transaction: looks again and, if there is still no receipt, creates the operation and its receipt.
      Every rejection rolls back. */
  function Commit(s: Store, request: Request, draft: Draft, dispatching: bool, admitted: bool, time: Time): (Store, Found) {
    var (replayed, found) := Replay(s, request, dispatching, time);
    match found
    case Conflicts => (s, Conflicts)
    case Replayed(_) => (replayed, found)
    case _ =>
      if !admitted then (s, Rejected)
      else (Tell(Creating(replayed, request, draft, time), request.key, draft.id, draft.body), Created(draft.id))
  }

  /** What the creator brings: a random identifier, the response body and the expiry. */
  datatype Draft = Draft(id: Id, body: Id, expiresAt: Time)

  function Creating(s: Store, request: Request, draft: Draft, time: Time): Store {
    s.(operations := s.operations[draft.id := Operation(request.key, true, true, draft.expiresAt)],
       bodies := s.bodies[draft.id := draft.body],
       receipts := s.receipts[request.key :=
         Receipt(draft.id, request.fingerprint, if request.key.capability == External then request.code else None,
                 draft.body, time + Retention(request.key.capability))])
  }

  /** Receipts may go once retained long enough, never while their operation is live and, for managed ones, never while
      it is still sending. */
  predicate Removable(s: Store, key: Key, time: Time) {
    key in s.receipts &&
    s.receipts[key].retainUntil <= time &&
    var id := s.receipts[key].operation;
    id in s.operations ==> !s.operations[id].live && (key.capability == Managed ==> !s.operations[id].busy)
  }

  function Cleanup(s: Store, candidates: set<Key>, time: Time): Store {
    s.(receipts := map key | key in s.receipts && !(key in candidates && Removable(s, key, time)) :: s.receipts[key])
  }

  /** Terminal history goes after its retention; receipts survive it. */
  function Forget(s: Store, id: Id): Store {
    if id in s.operations && !s.operations[id].live && !s.operations[id].busy then s.(operations := s.operations - {id})
    else s
  }

  /** Attempts come and go while an operation is live; afterwards they only settle. */
  function Settle(s: Store, id: Id, busy: bool): Store {
    if id in s.operations && (busy ==> s.operations[id].live) then
      s.(operations := s.operations[id := s.operations[id].(busy := busy)])
    else s
  }

  datatype Step =
    | CheckStep(request: Request, dispatching: bool, projectActive: bool, time: Time)
    | CommitStep(request: Request, draft: Draft, dispatching: bool, admitted: bool, time: Time)
    | EndStep(id: Id, dispatching: bool)
    | SettleStep(id: Id, busy: bool)
    | CleanupStep(candidates: set<Key>, time: Time)
    | ForgetStep(id: Id)

  /** Callers run their two transactions at any time, in any number and any order; identifiers are never drawn twice. */
  function Next(s: Store, step: Step): Store {
    match step
    case CheckStep(request, dispatching, projectActive, time) => Check(s, request, dispatching, projectActive, time).0
    case CommitStep(request, draft, dispatching, admitted, time) =>
      if draft.id in s.bodies then s else Commit(s, request, draft, dispatching, admitted, time).0
    case EndStep(id, dispatching) => EndOperation(s, id, dispatching)
    case SettleStep(id, busy) => Settle(s, id, busy)
    case CleanupStep(candidates, time) => Cleanup(s, candidates, time)
    case ForgetStep(id) => Forget(s, id)
  }

  // ------------------------------------------------------------------------ invariant

  /** A live operation holds the receipt of its key; receipts and answers repeat what the creator stored. */
  predicate Keyed(s: Store) {
    && (forall id | id in s.operations && s.operations[id].live ::
          s.operations[id].key in s.receipts && s.receipts[s.operations[id].key].operation == id)
    && (forall key | key in s.receipts ::
          s.receipts[key].operation in s.bodies && s.receipts[key].body == s.bodies[s.receipts[key].operation])
    && (forall id | id in s.operations :: id in s.bodies)
    && (forall k | 0 <= k < |s.answers| ::
          s.answers[k].operation in s.bodies && s.answers[k].body == s.bodies[s.answers[k].operation])
  }

  lemma ReplayKeeps(s: Store, request: Request, dispatching: bool, time: Time)
    requires Keyed(s)
    ensures Keyed(Replay(s, request, dispatching, time).0)
    ensures Replay(s, request, dispatching, time).0.bodies == s.bodies
    ensures s.answers <= Replay(s, request, dispatching, time).0.answers
  {
    assert Keyed(ExpireRetained(s, request.key, dispatching, time));
  }

  lemma CommitKeeps(s: Store, request: Request, draft: Draft, dispatching: bool, admitted: bool, time: Time)
    requires Keyed(s) && draft.id !in s.bodies
    ensures Keyed(Commit(s, request, draft, dispatching, admitted, time).0)
    ensures s.answers <= Commit(s, request, draft, dispatching, admitted, time).0.answers
  {
    ReplayKeeps(s, request, dispatching, time);
  }

  lemma NextKeeps(s: Store, step: Step)
    requires Keyed(s)
    ensures Keyed(Next(s, step)) && s.answers <= Next(s, step).answers
  {
    match step
    case CheckStep(request, dispatching, _, time) => ReplayKeeps(s, request, dispatching, time);
    case CommitStep(request, draft, dispatching, admitted, time) =>
      if draft.id !in s.bodies { CommitKeeps(s, request, draft, dispatching, admitted, time); }
    case _ =>
  }

  predicate IsLive(s: Store, id: Id) {
    id in s.operations && s.operations[id].live
  }

  const Empty := Store(map[], map[], [], map[])

  function Run(s: Store, steps: seq<Step>): Store
    decreases |steps|
  {
    if steps == [] then s else Run(Next(s, steps[0]), steps[1..])
  }

  lemma {:induction false} RunKeyed(s: Store, steps: seq<Step>)
    requires Keyed(s)
    ensures Keyed(Run(s, steps)) && s.answers <= Run(s, steps).answers
    decreases |steps|
  {
    if steps != [] {
      NextKeeps(s, steps[0]);
      RunKeyed(Next(s, steps[0]), steps[1..]);
    }
  }

  /** Under any interleaving of callers, retries, endings and cleanup: at most one live operation per key, and everyone
      who is told about an operation is told the same. */
  lemma OneLiveOperationPerKey(steps: seq<Step>, a: Id, b: Id, j: nat, k: nat)
    ensures var s := Run(Empty, steps);
            && (IsLive(s, a) && IsLive(s, b) && s.operations[a].key == s.operations[b].key ==> a == b)
            && (j < |s.answers| && k < |s.answers| && s.answers[j].operation == s.answers[k].operation ==>
                  s.answers[j].body == s.answers[k].body)
  {
    RunKeyed(Empty, steps);
  }

  // ------------------------------------------------------------------- the retained key

  /** The receipt of the key cannot be removed by this step: cleanup comes too early or its operation is live. */
  predicate Retained(s: Store, step: Step, key: Key) {
    step.CleanupStep? ==> !Removable(s, key, step.time)
  }

  /** No step of the run finds the receipt of the key removable. */
  predicate RetainedThroughout(s: Store, steps: seq<Step>, key: Key)
    decreases |steps|
  {
    steps == [] || (Retained(s, steps[0], key) && RetainedThroughout(Next(s, steps[0]), steps[1..], key))
  }

  /** The key keeps its receipt, up to the erased code, and every new answer under it repeats that receipt. */
  predicate Upholds(s: Store, next: Store, key: Key)
    requires key in s.receipts
  {
    && key in next.receipts
    && next.receipts[key].(codeFingerprint := None) == s.receipts[key].(codeFingerprint := None)
    && s.answers <= next.answers
    && forall k | |s.answers| <= k < |next.answers| && next.answers[k].key == key ::
         next.answers[k] == Answer(key, s.receipts[key].operation, s.receipts[key].body)
  }

  lemma ReplayUpholds(s: Store, request: Request, dispatching: bool, time: Time, key: Key)
    requires key in s.receipts
    ensures Upholds(s, Replay(s, request, dispatching, time).0, key)
    ensures request.key == key ==> !Replay(s, request, dispatching, time).1.Missing?
  {
  }

  lemma RetainedReceiptIsFinal(s: Store, step: Step, key: Key)
    requires key in s.receipts && Retained(s, step, key)
    ensures Upholds(s, Next(s, step), key)
  {
    match step
    case CheckStep(request, dispatching, _, time) => ReplayUpholds(s, request, dispatching, time, key);
    case CommitStep(request, draft, dispatching, admitted, time) =>
      hide Replay;
      ReplayUpholds(s, request, dispatching, time, key);
    case _ =>
  }

  /** While the receipt of a key may not be removed, whatever callers, endings and cleanup do, each further answer under
      the key names the same operation and the same body. */
  lemma {:induction false} RetainedKeyAnswersAlike(s: Store, steps: seq<Step>, key: Key, k: nat)
    requires Keyed(s) && key in s.receipts && RetainedThroughout(s, steps, key)
    requires |s.answers| <= k < |Run(s, steps).answers| && Run(s, steps).answers[k].key == key
    ensures Run(s, steps).answers[k] == Answer(key, s.receipts[key].operation, s.receipts[key].body)
    decreases |steps|
  {
    if steps != [] {
      var next := Next(s, steps[0]);
      RetainedReceiptIsFinal(s, steps[0], key);
      NextKeeps(s, steps[0]);
      RunKeyed(next, steps[1..]);
      if k < |next.answers| {
        assert next.answers[k] == Run(s, steps).answers[k];
      } else {
        RetainedKeyAnswersAlike(next, steps[1..], key, k);
      }
    }
  }

  /** A live operation makes its key retained, however late cleanup runs: a caller that raced the creator and commits
      now gets the creator's body, a different request gets a conflict, and neither creates anything. */
  lemma LiveKeyCreatesNothing(s: Store, request: Request, id: Id, draft: Draft, dispatching: bool, admitted: bool, time: Time)
    requires Keyed(s) && id in s.operations && s.operations[id].live && s.operations[id].key == request.key
    requires time < s.operations[id].expiresAt
    ensures !Removable(s, request.key, time) && request.key in s.receipts
    ensures var r := s.receipts[request.key];
            var (c, found) := Commit(s, request, draft, dispatching, admitted, time);
            && c.operations == s.operations && c.receipts == s.receipts
            && (found == if r.fingerprint == request.fingerprint && (r.codeFingerprint.None? || r.codeFingerprint == request.code)
                         then Replayed(s.bodies[id]) else Conflicts)
  {
  }

  // ---------------------------------------------------------------------- the tables

  class CreationStore {
    var receipts: map<Key, Receipt>
    var operations: map<Id, Operation>
    ghost var answers: seq<Answer>
    ghost var bodies: map<Id, Id>

    ghost function Contents(): Store
      reads this
    {
      Store(receipts, operations, answers, bodies)
    }

    constructor ()
      ensures Contents() == Empty
    {
      receipts, operations, answers, bodies := map[], map[], [], map[];
    }

    method EndOperationOf(id: Id, dispatching: bool)
      modifies this`operations, this`receipts
      ensures Contents() == EndOperation(old(Contents()), id, dispatching)
    {
      if id !in operations || !operations[id].live {
        return;
      }
      operations := operations[id := operations[id].(live := false, busy := operations[id].busy && dispatching)];
      receipts := WithoutCode(receipts, id);
    }

    /** `replay`: the receipt is read, its operation is expired if due, and the receipt is read again. */
    method ReplayRequest(request: Request, dispatching: bool, time: Time) returns (found: Found)
      modifies this
      ensures (Contents(), found) == Replay(old(Contents()), request, dispatching, time)
    {
      if request.key !in receipts {
        return Missing;
      }
      if request.key.capability == External {
        var id := receipts[request.key].operation;
        if id in operations && operations[id].expiresAt <= time {
          EndOperationOf(id, dispatching);
        }
      }
      var r := receipts[request.key];
      if r.fingerprint != request.fingerprint {
        return Conflicts;
      }
      if r.codeFingerprint.Some? && r.codeFingerprint != request.code {
        return Conflicts;
      }
      answers := answers + [Answer(request.key, r.operation, r.body)];
      return Replayed(r.body);
    }

    /** The first transaction of a caller. */
    method CheckRequest(request: Request, dispatching: bool, projectActive: bool, time: Time) returns (found: Found)
      modifies this
      ensures (Contents(), found) == Check(old(Contents()), request, dispatching, projectActive, time)
    {
      found := ReplayRequest(request, dispatching, time);
      if found.Missing? && !projectActive {
        found := Rejected;
      }
    }

    /** The creating transaction; rolling back restores the tables. */
    method CommitPrepared(request: Request, draft: Draft, dispatching: bool, admitted: bool, time: Time) returns (found: Found)
      modifies this
      ensures (Contents(), found) == Commit(old(Contents()), request, draft, dispatching, admitted, time)
    {
      var savedReceipts, savedOperations := receipts, operations;
      found := ReplayRequest(request, dispatching, time);
      match found {
        case Conflicts =>
          receipts, operations := savedReceipts, savedOperations;
        case Missing =>
          if !admitted {
            receipts, operations := savedReceipts, savedOperations;
            return Rejected;
          }
          operations := operations[draft.id := Operation(request.key, true, true, draft.expiresAt)];
          receipts := receipts[request.key :=
            Receipt(draft.id, request.fingerprint, if request.key.capability == External then request.code else None,
                    draft.body, time + Retention(request.key.capability))];
          bodies := bodies[draft.id := draft.body];
          answers := answers + [Answer(request.key, draft.id, draft.body)];
          return Created(draft.id);
        case _ =>
      }
    }

    /** One cleanup batch over the candidate receipts. */
    method CleanupReceipts(candidates: seq<Key>, time: Time)
      modifies this`receipts
      ensures Contents() == Cleanup(old(Contents()), (set key | key in candidates), time)
    {
      ghost var before := old(Contents());
      for i := 0 to |candidates|
        invariant receipts == map key | key in before.receipts && !(key in candidates[..i] && Removable(before, key, time)) :: before.receipts[key]
      {
        var key := candidates[i];
        assert candidates[..i + 1] == candidates[..i] + [key];
        if key in receipts && receipts[key].retainUntil <= time {
          var id := receipts[key].operation;
          if id !in operations || (!operations[id].live && (key.capability == External || !operations[id].busy)) {
            receipts := receipts - {key};
          }
        }
      }
      assert candidates[..|candidates|] == candidates;
    }
  }
}
