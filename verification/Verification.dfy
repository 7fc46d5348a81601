/** Managed challenges: counting guesses, verifying once, and staying in step with the delivery operation. */
module Verification {
  import opened Prelude
  import opened Records
  import opened Quotas

  datatype VerificationState = Unverified | Verified | LockedOut | TimedOut | Cancelled

  /** The answers that a saved receipt can repeat. */
  datatype Answer = CodeAccepted(verificationId: Id) | Incorrect(locked: bool) | CancelledAnswer

  datatype Receipt = Receipt(fingerprint: Id, codeFingerprint: Option<Id>, answer: Answer)

  /** What never changes after creation; digests stand for the strings they are taken of. */
  datatype Terms = Terms(recipient: Id, maxIncorrectGuesses: nat, codeLength: nat, expiresAt: Time, binding: Id)

  /** The rows of a challenge and of the operation that delivers its code. `issued` is the history of
      verification ids. */
  datatype Challenge = Challenge(
    state: VerificationState,
    incorrectGuesses: nat,
    verificationId: Option<Id>,
    verifier: Option<Id>,
    operation: OperationState,
    deliverySecrets: bool,
    receipts: map<Id, Receipt>,
    issued: seq<Id>)

  datatype Request = Request(identity: Id, fingerprint: Id, binding: Id, code: Id, length: nat)

  datatype VerifyError =
    | ChallengeNotFound | StateConflict | Unavailable | WrongLength | TooManyGuesses | KeyConflict

  datatype Outcome = Answered(answer: Answer) | Rejected(error: VerifyError)

  predicate OpLive(state: OperationState) { state.Prepared? || state.Active? }

  // ---------------------------------------------------------------------- transitions

  function ForgetCodes(receipts: map<Id, Receipt>): map<Id, Receipt> {
    map identity | identity in receipts :: receipts[identity].(codeFingerprint := None)
  }

  /** The delivery side closes: its secrets and code fingerprints go, and an open challenge follows it. */
  function CloseDelivery(c: Challenge, state: OperationState): Challenge {
    var op := if OpLive(c.operation) then state else c.operation;
    c.(operation := op,
       deliverySecrets := false,
       receipts := ForgetCodes(c.receipts),
       state := if c.state.Unverified? then (if op.Expired? then TimedOut else Cancelled) else c.state,
       verifier := None)
  }

  function Terminate(c: Challenge, state: VerificationState): Challenge {
    CloseDelivery(if c.state.Unverified? then c.(state := state) else c, if state.TimedOut? then Expired else Closed)
  }

  function Expire(c: Challenge, terms: Terms, time: Time): Challenge {
    if c.state.Unverified? && time >= terms.expiresAt then Terminate(c, TimedOut) else c
  }

  /** The delivery operation's own expiry. */
  function ExpireDelivery(c: Challenge, terms: Terms, time: Time): Challenge {
    if OpLive(c.operation) && time >= terms.expiresAt then CloseDelivery(c, Expired) else c
  }

  /** A saved answer, after logical expiry; a different request under the same key conflicts. */
  function Replay(c: Challenge, request: Request): Option<Outcome> {
    if request.identity !in c.receipts then None
    else
      var r := c.receipts[request.identity];
      if r.fingerprint != request.fingerprint then Some(Rejected(KeyConflict))
      else if r.codeFingerprint.Some? && r.codeFingerprint.value != request.code then Some(Rejected(KeyConflict))
      else Some(Answered(r.answer))
  }

  function Save(c: Challenge, request: Request, answer: Answer, live: bool): Challenge {
    c.(receipts := c.receipts[request.identity :=
      Receipt(request.fingerprint, if live then Some(request.code) else None, answer)])
  }

  function Accept(c: Challenge, request: Request, id: Id): Challenge {
    var verified := c.(state := Verified, verificationId := Some(id), issued := c.issued + [id]);
    Save(CloseDelivery(verified, Closed), request, CodeAccepted(id), false)
  }

  function Miss(c: Challenge, terms: Terms, request: Request): Challenge {
    var counted := c.(incorrectGuesses := c.incorrectGuesses + 1);
    var live := c.incorrectGuesses + 1 < terms.maxIncorrectGuesses;
    Save(if live then counted else Terminate(counted, LockedOut), request, Incorrect(!live), live)
  }

  /** The recipient's guess limit lets another guess be looked at. */
  predicate GuessOpen(l: Ledger, settings: Settings, terms: Terms, time: Time) {
    RetryAt(l, GuessLimits(settings, terms.recipient), time).None?
  }

  /** Whether a first-time guess is looked at, after logical expiry. */
  function Guard(c: Challenge, terms: Terms, request: Request, guessOpen: bool): Option<VerifyError> {
    if c.state.Verified? then Some(StateConflict)
    else if !c.state.Unverified? then Some(Unavailable)
    else if request.length != terms.codeLength then Some(WrongLength)
    else if !guessOpen then Some(TooManyGuesses)
    else None
  }

  /** What a verification leaves behind and answers. */
  datatype Verdict = Verdict(challenge: Challenge, ledger: Ledger, outcome: Outcome)

  /** `verifyChallenge` over the shared ledger; `guess` and `id` are new identifiers, of a counted guess and of the
      verification. */
  function Verify(c: Challenge, l: Ledger, settings: Settings, terms: Terms, request: Request, guess: Id, id: Id, time: Time): Verdict {
    if request.binding != terms.binding then Verdict(c, l, Rejected(ChallengeNotFound))
    else
      var e := Expire(c, terms, time);
      var replayed := Replay(e, request);
      if replayed.Some? then Verdict(e, l, replayed.value)
      else
        var refused := Guard(e, terms, request, GuessOpen(l, settings, terms, time));
        if refused.Some? then Verdict(e, l, Rejected(refused.value))
        else if e.verifier == Some(request.code) then Verdict(Accept(e, request, id), l, Answered(CodeAccepted(id)))
        else
          var missed := Miss(e, terms, request);
          Verdict(missed, ChargeGuess(l, settings, terms.recipient, guess, time), Answered(Incorrect(missed.state.LockedOut?)))
  }

  /** `cancelChallenge`. */
  function Cancel(c: Challenge, terms: Terms, request: Request, time: Time): (Challenge, Outcome) {
    var e := Expire(c, terms, time);
    var replayed := Replay(e, request);
    if replayed.Some? then (e, replayed.value)
    else if !e.state.Unverified? && !e.state.Cancelled? then (e, Rejected(StateConflict))
    else (Save(if e.state.Unverified? then Terminate(e, Cancelled) else e, request, CancelledAnswer, false), Answered(CancelledAnswer))
  }

  /** A created challenge: its code is attached and its operation is active. */
  function Created(verifier: Id): Challenge {
    Challenge(Unverified, 0, None, Some(verifier), Active, true, map[], [])
  }

  // ------------------------------------------------------------------------ invariant

  /** What holds whenever a transaction commits. */
  predicate Coupled(c: Challenge, terms: Terms) {
    && (c.state.Unverified? <==> OpLive(c.operation))
    && (c.state.TimedOut? <==> c.operation.Expired?)
    && (c.verifier.Some? <==> OpLive(c.operation))
    && (c.deliverySecrets <==> OpLive(c.operation))
    && (forall identity | identity in c.receipts && c.receipts[identity].codeFingerprint.Some? :: OpLive(c.operation))
    && c.incorrectGuesses <= terms.maxIncorrectGuesses
    && (c.state.LockedOut? <==> c.incorrectGuesses == terms.maxIncorrectGuesses)
    && (c.state.Verified? <==> c.verificationId.Some?)
    && c.issued == (if c.verificationId.Some? then [c.verificationId.value] else [])
  }

  /** What no transaction undoes. */
  predicate Keeps(a: Challenge, b: Challenge) {
    && (!a.state.Unverified? ==> b.state == a.state && b.incorrectGuesses == a.incorrectGuesses && b.verificationId == a.verificationId)
    && a.incorrectGuesses <= b.incorrectGuesses <= a.incorrectGuesses + 1
    && a.issued <= b.issued
    && forall identity | identity in a.receipts ::
         && identity in b.receipts
         && b.receipts[identity].answer == a.receipts[identity].answer
         && b.receipts[identity].fingerprint == a.receipts[identity].fingerprint
  }

  /** Other recipients, other challenges and the engine change the ledger between two verifications, so each finds
      whatever ledger there is. */
  datatype Command =
    | VerifyCommand(ledger: Ledger, settings: Settings, request: Request, guess: Id, id: Id, time: Time)
    | CancelCommand(request: Request, time: Time)
    | ExpireCommand(time: Time)
    | CloseCommand

  function Next(c: Challenge, terms: Terms, command: Command): Challenge {
    match command
    case VerifyCommand(ledger, settings, request, guess, id, time) => Verify(c, ledger, settings, terms, request, guess, id, time).challenge
    case CancelCommand(request, time) => Cancel(c, terms, request, time).0
    case ExpireCommand(time) => ExpireDelivery(c, terms, time)
    case CloseCommand => if OpLive(c.operation) then CloseDelivery(c, Closed) else c
  }

  lemma ExpireKeeps(c: Challenge, terms: Terms, time: Time)
    requires Coupled(c, terms)
    ensures Coupled(Expire(c, terms, time), terms) && Keeps(c, Expire(c, terms, time))
    ensures Expire(c, terms, time).receipts.Keys == c.receipts.Keys
  {
  }

  lemma VerifyKeeps(c: Challenge, l: Ledger, settings: Settings, terms: Terms, request: Request, guess: Id, id: Id, time: Time)
    requires Coupled(c, terms) && 0 < terms.maxIncorrectGuesses
    ensures var v := Verify(c, l, settings, terms, request, guess, id, time);
            Coupled(v.challenge, terms) && Keeps(c, v.challenge)
  {
    hide RetryAt, Count;
    ExpireKeeps(c, terms, time);
    hide Expire;
  }

  lemma CancelKeeps(c: Challenge, terms: Terms, request: Request, time: Time)
    requires Coupled(c, terms) && 0 < terms.maxIncorrectGuesses
    ensures Coupled(Cancel(c, terms, request, time).0, terms) && Keeps(c, Cancel(c, terms, request, time).0)
  {
    ExpireKeeps(c, terms, time);
    hide Expire;
  }

  lemma NextKeeps(c: Challenge, terms: Terms, command: Command)
    requires Coupled(c, terms) && 0 < terms.maxIncorrectGuesses
    ensures Coupled(Next(c, terms, command), terms) && Keeps(c, Next(c, terms, command))
  {
    hide Verify, Cancel;
    match command
    case VerifyCommand(ledger, settings, request, guess, id, time) => VerifyKeeps(c, ledger, settings, terms, request, guess, id, time);
    case CancelCommand(request, time) => CancelKeeps(c, terms, request, time);
    case _ =>
  }

  function Run(c: Challenge, terms: Terms, commands: seq<Command>): Challenge {
    if commands == [] then c else Next(Run(c, terms, commands[..|commands|-1]), terms, commands[|commands|-1])
  }

  /** Over every run from creation: challenge and operation stay in step, codes live only while the operation does,
      the guess limit locks exactly when it is reached, and at most one verification id is ever issued. */
  lemma {:induction false} RunCoupled(verifier: Id, terms: Terms, commands: seq<Command>)
    requires 0 < terms.maxIncorrectGuesses
    ensures var c := Run(Created(verifier), terms, commands);
            Coupled(c, terms) && |c.issued| <= 1 && (c.issued != [] ==> c.state.Verified? && c.operation.Closed?)
  {
    if commands != [] {
      RunCoupled(verifier, terms, commands[..|commands|-1]);
      NextKeeps(Run(Created(verifier), terms, commands[..|commands|-1]), terms, commands[|commands|-1]);
    }
  }

  /** Terminal states absorb, and a receipt repeats its answer for ever. */
  lemma {:induction false} RunAbsorbs(c: Challenge, terms: Terms, commands: seq<Command>)
    requires 0 < terms.maxIncorrectGuesses && Coupled(c, terms)
    ensures var d := Run(c, terms, commands);
            && Coupled(d, terms)
            && (!c.state.Unverified? ==> d.state == c.state && d.verificationId == c.verificationId && d.incorrectGuesses == c.incorrectGuesses)
            && forall identity | identity in c.receipts ::
                 && identity in d.receipts && d.receipts[identity].answer == c.receipts[identity].answer
                 && d.receipts[identity].fingerprint == c.receipts[identity].fingerprint
  {
    if commands != [] {
      RunAbsorbs(c, terms, commands[..|commands|-1]);
      NextKeeps(Run(c, terms, commands[..|commands|-1]), terms, commands[|commands|-1]);
    }
  }

  /** The guess is compared with the code: right binding and length, in time, and within the recipient's guess limit. */
  predicate Looked(c: Challenge, l: Ledger, settings: Settings, terms: Terms, request: Request, time: Time) {
    && request.binding == terms.binding && c.state.Unverified? && time < terms.expiresAt
    && request.length == terms.codeLength && GuessOpen(l, settings, terms, time)
  }

  /** A new request is accepted exactly when it is looked at and right; it counts against the challenge and against the
      recipient exactly when it is looked at and wrong. */
  lemma VerifiedExactlyWhen(c: Challenge, l: Ledger, settings: Settings, terms: Terms, request: Request, guess: Id, id: Id, time: Time)
    requires Coupled(c, terms) && request.identity !in c.receipts
    ensures var v := Verify(c, l, settings, terms, request, guess, id, time);
            var looked := Looked(c, l, settings, terms, request, time);
            && (v.outcome == Answered(CodeAccepted(id)) <==> looked && c.verifier == Some(request.code))
            && (v.challenge.incorrectGuesses == c.incorrectGuesses + 1 <==> looked && c.verifier != Some(request.code))
            && (v.challenge.state.Verified? <==> c.state.Verified? || v.outcome == Answered(CodeAccepted(id)))
            && v.ledger == (if looked && c.verifier != Some(request.code)
                            then ChargeGuess(l, settings, terms.recipient, guess, time) else l)
  {
  }

  /** A repeated request is answered from its receipt and writes nothing but expiry; only a different request, or a
      different code while the operation is live, conflicts. */
  lemma ReplayIsExact(c: Challenge, l: Ledger, settings: Settings, terms: Terms, request: Request, guess: Id, id: Id, time: Time)
    requires Coupled(c, terms) && request.identity in c.receipts && request.binding == terms.binding
    ensures var v := Verify(c, l, settings, terms, request, guess, id, time);
            var saved := c.receipts[request.identity];
            var conflict := saved.fingerprint != request.fingerprint ||
              (saved.codeFingerprint.Some? && time < terms.expiresAt && saved.codeFingerprint.value != request.code);
            && v.challenge == Expire(c, terms, time) && v.ledger == l
            && v.outcome == if conflict then Rejected(KeyConflict) else Answered(saved.answer)
  {
  }

  // ---------------------------------------------------------------------- the tables

  class ManagedChallenge {
    const terms: Terms
    const settings: Settings
    /** The quota ledger, which all challenges and the delivery engine share. */
    var ledger: Ledger
    var state: VerificationState
    var incorrectGuesses: nat
    var verificationId: Option<Id>
    var verifier: Option<Id>
    var operation: OperationState
    var deliverySecrets: bool
    var receipts: map<Id, Receipt>
    ghost var issued: seq<Id>

    ghost function Rows(): Challenge
      reads this
    {
      Challenge(state, incorrectGuesses, verificationId, verifier, operation, deliverySecrets, receipts, issued)
    }

    constructor (terms: Terms, settings: Settings, ledger: Ledger, verifier: Id)
      ensures Rows() == Created(verifier) && this.terms == terms && this.settings == settings && this.ledger == ledger
    {
      this.terms, this.settings, this.ledger := terms, settings, ledger;
      state, incorrectGuesses, verificationId, this.verifier := Unverified, 0, None, Some(verifier);
      operation, deliverySecrets, receipts, issued := Active, true, map[], [];
    }

    /** Follows a closed or expired operation. */
    method Synchronize()
      modifies this`state, this`verifier
      ensures operation.Closed? || operation.Expired? ==>
                && verifier == None
                && state == if old(state).Unverified? then (if operation.Expired? then TimedOut else Cancelled) else old(state)
      ensures !(operation.Closed? || operation.Expired?) ==> state == old(state) && verifier == old(verifier)
    {
      if !operation.Closed? && !operation.Expired? {
        return;
      }
      if state.Unverified? {
        state := if operation.Expired? then TimedOut else Cancelled;
      }
      verifier := None;
    }

    method CloseOperation(to: OperationState)
      requires to.Closed? || to.Expired?
      modifies this
      ensures ledger == old(ledger)
      ensures Rows() == CloseDelivery(old(Rows()), to)
    {
      if operation.Prepared? || operation.Active? {
        operation := to;
      }
      deliverySecrets := false;
      receipts := map identity | identity in receipts :: receipts[identity].(codeFingerprint := None);
      Synchronize();
    }

    method TerminateWith(to: VerificationState)
      modifies this
      ensures ledger == old(ledger)
      ensures Rows() == Terminate(old(Rows()), to)
    {
      if state.Unverified? {
        state := to;
      }
      CloseOperation(if to.TimedOut? then Expired else Closed);
    }

    method ExpireAt(time: Time)
      modifies this
      ensures ledger == old(ledger)
      ensures Rows() == Expire(old(Rows()), terms, time)
    {
      if state.Unverified? && time >= terms.expiresAt {
        TerminateWith(TimedOut);
      }
    }

    method SaveResult(request: Request, answer: Answer, live: bool)
      modifies this`receipts
      ensures Rows() == Save(old(Rows()), request, answer, live)
    {
      receipts := receipts[request.identity := Receipt(request.fingerprint, if live then Some(request.code) else None, answer)];
    }

    method ReplayRequest(request: Request) returns (outcome: Option<Outcome>)
      ensures outcome == Replay(Rows(), request)
    {
      if request.identity !in receipts {
        return None;
      }
      var r := receipts[request.identity];
      if r.fingerprint != request.fingerprint || (r.codeFingerprint.Some? && r.codeFingerprint.value != request.code) {
        return Some(Rejected(KeyConflict));
      }
      return Some(Answered(r.answer));
    }

    method VerifyChallenge(request: Request, guess: Id, id: Id, time: Time) returns (outcome: Outcome)
      modifies this
      ensures Verdict(Rows(), ledger, outcome) == Verify(old(Rows()), old(ledger), settings, terms, request, guess, id, time)
    {
      if request.binding != terms.binding {
        return Rejected(ChallengeNotFound);
      }
      ExpireAt(time);
      var replayed := ReplayRequest(request);
      if replayed.Some? {
        return replayed.value;
      }
      if !state.Unverified? {
        return Rejected(if state.Verified? then StateConflict else Unavailable);
      }
      if request.length != terms.codeLength {
        return Rejected(WrongLength);
      }
      if RetryAt(ledger, GuessLimits(settings, terms.recipient), time).Some? {
        return Rejected(TooManyGuesses);
      }
      if verifier == Some(request.code) {
        state, verificationId := Verified, Some(id);
        issued := issued + [id];
        CloseOperation(Closed);
        verifier := None;
        SaveResult(request, CodeAccepted(id), false);
        return Answered(CodeAccepted(id));
      }
      incorrectGuesses := incorrectGuesses + 1;
      ledger := Count(ledger, GuessLimits(settings, terms.recipient), GuessEvent(guess), time);
      var live := incorrectGuesses < terms.maxIncorrectGuesses;
      if !live {
        TerminateWith(LockedOut);
      }
      SaveResult(request, Incorrect(!live), live);
      return Answered(Incorrect(!live));
    }

    method CancelChallenge(request: Request, time: Time) returns (outcome: Outcome)
      modifies this
      ensures ledger == old(ledger)
      ensures (Rows(), outcome) == Cancel(old(Rows()), terms, request, time)
    {
      ExpireAt(time);
      var replayed := ReplayRequest(request);
      if replayed.Some? {
        return replayed.value;
      }
      if !state.Unverified? && !state.Cancelled? {
        return Rejected(StateConflict);
      }
      if state.Unverified? {
        TerminateWith(Cancelled);
      }
      SaveResult(request, CancelledAnswer, false);
      return Answered(CancelledAnswer);
    }
  }
}
