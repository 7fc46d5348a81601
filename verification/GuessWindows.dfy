/** Verification and delivery share one quota ledger: what a verification does to it is a step of the engine, so the
    guess limits hold in every run of both. */
module GuessWindows {
  import opened Prelude
  import opened Quotas
  import opened QuotaProofs
  import opened Engine
  import opened EngineWrites
  import opened EngineRuns
  import opened Windows
  import Verification

  /** The database after a verification of some challenge ran on its ledger. */
  function AfterVerification(db: Db, c: Verification.Challenge, terms: Verification.Terms, request: Verification.Request,
                             guess: Id, id: Id, time: Time): Db {
    var v := Verification.Verify(c, db.env.ledger, db.env.settings, terms, request, guess, id, time);
    Tick(db, time).(
      env := db.env.(ledger := v.ledger),
      trail := db.trail + if v.challenge.incorrectGuesses > c.incorrectGuesses then [Guessed(guess, terms.recipient, time)] else [])
  }

  lemma VerificationCounts(db: Db, c: Verification.Challenge, terms: Verification.Terms, request: Verification.Request,
                           guess: Id, id: Id, time: Time)
    ensures var after := AfterVerification(db, c, terms, request, guess, id, time);
            after == CountGuess(db, terms.recipient, guess, time) || after == Engine.Clean(db, {}, time)
  {
    hide RetryAt, Count;
    assert Cleanup(db.env.ledger, {}) == db.env.ledger;
  }

  /** A verification, of any challenge and whatever its answer, is a step of the engine: the state it leaves is
      reachable. */
  lemma VerificationReachable(db: Db, c: Verification.Challenge, terms: Verification.Terms, request: Verification.Request,
                              guess: Id, id: Id, time: Time)
    requires Reachable(db) && !WasGuessed(db, guess) && db.clock <= time
    ensures Reachable(AfterVerification(db, c, terms, request, guess, id, time))
  {
    hide Reachable, AfterVerification, CountGuess;
    VerificationCounts(db, c, terms, request, guess, id, time);
    ReachableNext(db, GuessStep(terms.recipient, guess, time));
    ReachableNext(db, CleanStep({}, time));
  }

  /** In every run of deliveries and verifications of any challenges, no window of a recipient's guess limit ever holds
      more counted guesses than its maximum. */
  lemma GuessesAreBounded(db: Db, c: Verification.Challenge, terms: Verification.Terms, request: Verification.Request,
                          guess: Id, id: Id, time: Time, recipient: Id, end: Time)
    requires Reachable(db) && !WasGuessed(db, guess) && db.clock <= time
    requires 1 <= db.env.settings.recipientGuessLimit15m
    ensures var v := Verification.Verify(c, db.env.ledger, db.env.settings, terms, request, guess, id, time);
            var limit := RecipientLimit(recipient, Kind.Guess, db.env.settings.recipientGuessLimit15m);
            |InWindow(v.ledger, limit, end)| <= limit.maximum
  {
    hide Reachable, InWindow;
    var after := AfterVerification(db, c, terms, request, guess, id, time);
    VerificationReachable(db, c, terms, request, guess, id, time);
    EngineWindowSafety(after, RecipientLimit(recipient, Kind.Guess, db.env.settings.recipientGuessLimit15m), end);
  }
}
