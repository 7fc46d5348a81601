/** Claim generations and project block generations as fencing tokens: a stale decision changes nothing,
    and every dispatch stands on an approval that no project denial has overtaken. */
module Fencing {
  import opened Prelude
  import opened Records
  import opened Routing
  import opened RoutingInvariant
  import opened RowFrames
  import opened Eligibility
  import opened Engine
  import opened EngineInvariant
  import opened EngineSteps
  import opened EngineWrites
  import opened EngineFrames
  import opened EngineRuns

  predicate IsDenial(fact: Fact, project: Id) { fact.ProjectDenied? && fact.project == project }

  /** How many denials of the project a trail records. */
  function Denials(trail: seq<Fact>, project: Id): nat {
    if trail == [] then 0
    else Denials(trail[..|trail|-1], project) + if IsDenial(trail[|trail|-1], project) then 1 else 0
  }

  lemma {:induction false} DenialsGrow(trail: seq<Fact>, k: nat, project: Id)
    requires k <= |trail|
    ensures Denials(trail[..k], project) <= Denials(trail, project)
    ensures Denials(trail[..k], project) == Denials(trail, project) ==>
              forall j | k <= j < |trail| :: !IsDenial(trail[j], project)
  {
    if k < |trail| {
      var shorter := trail[..|trail|-1];
      DenialsGrow(shorter, k, project);
      assert shorter[..k] == trail[..k];
    } else {
      assert trail[..k] == trail;
    }
  }

  /** The block row counts the project's denials and lasts at least as long as each of them asked. */
  ghost predicate BlocksCount(db: Db) {
    && (forall project :: BlockOf(db, project).generation == Denials(db.trail, project))
    && (forall k | 0 <= k < |db.trail| && db.trail[k].ProjectDenied? ::
          var until := BlockOf(db, db.trail[k].project).until; until.Some? && db.trail[k].until <= until.value)
  }

  predicate ClaimedAt(trail: seq<Fact>, k: nat, claim: Claim) {
    k < |trail| && trail[k].Claimed? && trail[k].claim == claim
  }

  /** Claims of one attempt have increasing generations; the latest one matches the attempt's columns. */
  ghost predicate ClaimsOrdered(db: Db) {
    && (forall k: nat, claim | ClaimedAt(db.trail, k, claim) ::
          && Present(db, claim.attempt)
          && var auth := AttemptAt(db, claim.attempt).auth;
             && 0 < claim.generation <= auth.generation
             && (claim.generation == auth.generation ==> claim.projectGeneration == auth.projectGeneration))
    && (forall j: nat, k: nat, c, d | j < k && ClaimedAt(db.trail, j, c) && ClaimedAt(db.trail, k, d) && c.attempt == d.attempt ::
          c.generation < d.generation)
  }

  function ProjectOf(db: Db, id: AttemptId): Id
    requires Present(db, id)
  {
    db.deliveries[id.operation].saved.project
  }

  /** Entry `k` is the claim on which the attempt's authorization stands. */
  predicate Backing(db: Db, id: AttemptId, k: nat)
    requires Present(db, id)
  {
    var auth := AttemptAt(db, id).auth;
    && ClaimedAt(db.trail, k, Claim(id, auth.generation, auth.projectGeneration))
    && Denials(db.trail[..k], ProjectOf(db, id)) == auth.projectGeneration
    && db.trail[k].time <= db.clock
    && (auth.approvedAt.Some? ==> db.trail[k].time <= auth.approvedAt.value <= db.clock)
  }

  ghost predicate Backed(db: Db) {
    forall id: AttemptId | Present(db, id) ::
      && (AttemptAt(db, id).auth.approvedAt.Some? ==> AttemptAt(db, id).auth.generation > 0)
      && (AttemptAt(db, id).auth.generation > 0 ==> exists k: nat :: Backing(db, id, k))
  }

  /** The dispatch at `k` happened outside every block recorded before it and, if the operation needs the
      authority, on an unexpired approval whose claim no denial of the project had overtaken. */
  ghost predicate Sound(db: Db, k: nat)
    requires k < |db.trail| && db.trail[k].Dispatched? && Present(db, db.trail[k].attempt)
  {
    var id := db.trail[k].attempt;
    var time := db.trail[k].time;
    var auth := AttemptAt(db, id).auth;
    && (forall j | 0 <= j < k && IsDenial(db.trail[j], ProjectOf(db, id)) :: db.trail[j].until <= time)
    && (db.deliveries[id.operation].saved.authorizationRequired ==>
          && auth.state.Approved? && auth.approvedAt.Some? && auth.expiresAt.Some?
          && auth.approvedAt.value <= time < auth.expiresAt.value
          && exists j: nat :: j < k && Supports(db, id, j, k))
  }

  predicate Supports(db: Db, id: AttemptId, j: nat, k: nat)
    requires Present(db, id) && k <= |db.trail|
  {
    var auth := AttemptAt(db, id).auth;
    && ClaimedAt(db.trail, j, Claim(id, auth.generation, auth.projectGeneration))
    && (auth.approvedAt.Some? ==> db.trail[j].time <= auth.approvedAt.value)
    && forall i | j <= i < k :: !IsDenial(db.trail[i], ProjectOf(db, id))
  }

  ghost predicate DispatchesSound(db: Db) {
    forall k | 0 <= k < |db.trail| && db.trail[k].Dispatched? ::
      Present(db, db.trail[k].attempt) && Settled(AttemptAt(db, db.trail[k].attempt)) && Sound(db, k)
  }

  ghost predicate Fenced(db: Db) {
    BlocksCount(db) && ClaimsOrdered(db) && Backed(db) && DispatchesSound(db)
  }

  // ------------------------------------------------- what a write does to the tokens

  /** The columns of an authorization that fence decisions. */
  predicate SameToken(a: Authorization, b: Authorization) {
    a.generation == b.generation && a.projectGeneration == b.projectGeneration
  }

  ghost predicate KeepsTokens(a: Db, b: Db) {
    && (forall id: AttemptId | Present(a, id) ::
          && Present(b, id) && ProjectOf(b, id) == ProjectOf(a, id)
          && SameToken(AttemptAt(a, id).auth, AttemptAt(b, id).auth))
    && (forall id: AttemptId | Present(b, id) && !Present(a, id) ::
          AttemptAt(b, id).auth.generation == 0 && AttemptAt(b, id).auth.approvedAt.None?)
  }

  ghost predicate KeepsApprovals(a: Db, b: Db) {
    forall id: AttemptId | Present(a, id) ::
      Present(b, id) && AttemptAt(b, id).auth.approvedAt == AttemptAt(a, id).auth.approvedAt
  }

  lemma AuthTokens(a: Db, b: Db)
    requires DbEvolves(a, b) && KeepsAuth(a, b)
    ensures KeepsTokens(a, b) && KeepsApprovals(a, b)
  {
    hide Follows;
    forall id: AttemptId | Present(a, id)
      ensures Present(b, id) && ProjectOf(b, id) == ProjectOf(a, id) && AttemptAt(b, id).auth == AttemptAt(a, id).auth
    {
      assert Evolves(a.deliveries[id.operation], b.deliveries[id.operation]);
      assert AuthOf(b.deliveries[id.operation], id.index) == AuthOf(a.deliveries[id.operation], id.index);
    }
    forall id: AttemptId | Present(b, id) && !Present(a, id)
      ensures AttemptAt(b, id).auth.generation == 0 && AttemptAt(b, id).auth.approvedAt.None?
    {
      if id.operation in a.deliveries {
        assert AuthOf(b.deliveries[id.operation], id.index) == AuthOf(a.deliveries[id.operation], id.index);
      }
    }
  }

  /** Writing one attempt back leaves every other attempt and every project alone. */
  lemma OthersKept(db: Db, b: Db, id: AttemptId, a: Attempt)
    requires Present(db, id)
    requires b.deliveries == db.deliveries[id.operation := WithAttempt(db.deliveries[id.operation], id.index, a)]
    ensures Present(b, id) && ProjectOf(b, id) == ProjectOf(db, id) && AttemptAt(b, id) == a
    ensures forall other: AttemptId | other != id ::
              && (Present(b, other) <==> Present(db, other))
              && (Present(db, other) ==>
                    AttemptAt(b, other) == AttemptAt(db, other) && ProjectOf(b, other) == ProjectOf(db, other))
  {
  }

  /** A claim takes the next generation and records the project's; nothing else moves. */
  lemma ClaimTokens(db: Db, id: AttemptId, jobRevision: nat, time: Time)
    requires DbValid(db) && Addressable(db, id)
    ensures var b := ClaimLocked(db, id, jobRevision, time);
            && KeepsApprovals(db, b)
            && (!Grants(db, Claiming(id, jobRevision, time)) ==> KeepsTokens(db, b))
            && (Grants(db, Claiming(id, jobRevision, time)) ==>
                  && Present(b, id) && ProjectOf(b, id) == ProjectOf(db, id)
                  && AttemptAt(b, id).auth.generation == AttemptAt(db, id).auth.generation + 1
                  && AttemptAt(b, id).auth.projectGeneration == BlockOf(db, ProjectOf(db, id)).generation
                  && AttemptAt(b, id).auth.approvedAt.None?
                  && forall other: AttemptId | other != id ::
                       && (Present(b, other) <==> Present(db, other))
                       && (Present(db, other) ==>
                             AttemptAt(b, other) == AttemptAt(db, other) && ProjectOf(b, other) == ProjectOf(db, other)))
  {
    hide DbValid, RowsValid, IntentEligible, ClaimVerdictOf;
    ValidAddressable(db, id);
    var d := db.deliveries[id.operation];
    var b := ClaimLocked(db, id, jobRevision, time);
    var claimed := ClaimedRow(d, id.index, jobRevision, time, IntentEligible(db.env.world, d.saved, IntentAt(db, id)), BlockOf(db, d.saved.project));
    OthersKept(db, b, id, claimed);
  }

  lemma ClaimedRow(d: Delivery, i: nat, jobRevision: nat, time: Time, eligible: bool, block: Block) returns (a: Attempt)
    requires i < |d.attempts| && d.attempts[i].route.position < |d.saved.steps|
    requires AttemptValid(d.saved, d.attempts[i])
    ensures ClaimAuthorization(d, i, jobRevision, time, eligible, block) == WithAttempt(d, i, a)
    ensures a.auth.approvedAt == d.attempts[i].auth.approvedAt
    ensures if ClaimVerdictOf(d, i, jobRevision, time, eligible, block).ClaimGranted? then
              && a.auth.generation == d.attempts[i].auth.generation + 1 && a.auth.projectGeneration == block.generation
              && a.auth.approvedAt.None?
            else a.auth.(state := d.attempts[i].auth.state, leaseUntil := d.attempts[i].auth.leaseUntil) == d.attempts[i].auth
  {
    a := ClaimAuthorization(d, i, jobRevision, time, eligible, block).attempts[i];
    assert d.attempts[i := a] == ClaimAuthorization(d, i, jobRevision, time, eligible, block).attempts;
  }

  /** A decision moves no token and approves only in the present. */
  lemma FinishTokens(db: Db, claim: Claim, decision: AuthorityDecision, time: Time)
    requires DbValid(db) && Addressable(db, claim.attempt) && db.clock <= time
    ensures var b := FinishLocked(db, claim, decision, time);
            && KeepsTokens(db, b)
            && b.clock == time
            && (forall id: AttemptId | Present(db, id) ::
                  Present(b, id) &&
                  (AttemptAt(b, id).auth.approvedAt == AttemptAt(db, id).auth.approvedAt
                    || (id == claim.attempt && AttemptAt(b, id).auth.approvedAt == Some(time)
                        && AttemptAt(db, id).auth.generation == claim.generation)))
            && b.blocks == (if Denies(db, Finishing(claim, decision, time)) then
                              db.blocks[ProjectOf(db, claim.attempt) :=
                                RecordDenial(BlockOf(db, ProjectOf(db, claim.attempt)), time, decision.retryAt)]
                            else db.blocks)
  {
    hide DbValid, RowsValid, IntentEligible;
    var b := FinishLocked(db, claim, decision, time);
    var operation := claim.attempt.operation;
    assert b.deliveries[operation].saved == db.deliveries[operation].saved;
    assert |b.deliveries[operation].attempts| == |db.deliveries[operation].attempts|;
  }

  // ------------------------------------------------------------------ each part is kept

  lemma DenialsOfExtension(trail: seq<Fact>, fact: Fact, project: Id)
    ensures Denials(trail + [fact], project) == Denials(trail, project) + if IsDenial(fact, project) then 1 else 0
  {
    assert (trail + [fact])[..|trail|] == trail;
  }

  /** One new denial, recorded in its project's block, or none. */
  lemma DenialCounted(a: Db, b: Db, project: Id, time: Time, retryAt: Time)
    requires BlocksCount(a) && b.trail == a.trail + [ProjectDenied(project, Max(time + 1000, retryAt))]
    requires b.blocks == a.blocks[project := RecordDenial(BlockOf(a, project), time, retryAt)]
    ensures BlocksCount(b)
  {
    var fact := ProjectDenied(project, Max(time + 1000, retryAt));
    forall p ensures BlockOf(b, p).generation == Denials(b.trail, p) {
      DenialsOfExtension(a.trail, fact, p);
    }
    hide Denials;
    DenialsOutlived(a, b, [fact]);
  }

  lemma NoDenialCounted(a: Db, b: Db, facts: seq<Fact>)
    requires BlocksCount(a) && b.trail == a.trail + facts && |facts| <= 1 && b.blocks == a.blocks
    requires facts != [] ==> !facts[0].ProjectDenied?
    ensures BlocksCount(b)
  {
    forall p ensures BlockOf(b, p).generation == Denials(b.trail, p) {
      if facts != [] {
        assert facts == [facts[0]];
        DenialsOfExtension(a.trail, facts[0], p);
      } else {
        assert b.trail == a.trail;
      }
    }
    hide Denials;
    DenialsOutlived(a, b, facts);
  }

  lemma BlocksKept(db: Db, w: Write)
    requires DbValid(db) && Allowed(db, w) && BlocksCount(db)
    ensures BlocksCount(Perform(db, w))
  {
    hide DbValid, Perform, Allowed, Grants, Commits, NewFacts, BlocksCount, RecordDenial;
    FactKinds(db, w);
    var b, facts := TrailAfter(db, w);
    if w.Finishing? {
      FinishedBlocks(db, w);
    }
    if Denies(db, w) {
      assert facts == [facts[0]];
      DenialCounted(db, b, ProjectOf(db, w.claim.attempt), w.time, w.decision.retryAt);
    } else {
      NoDenialCounted(db, b, facts);
    }
  }

  /** Blocks are only ever extended, by at least what the new denial asks. */
  lemma DenialsOutlived(a: Db, b: Db, facts: seq<Fact>)
    requires BlocksCount(a) && b.trail == a.trail + facts && |facts| <= 1
    requires forall project | BlockOf(a, project).until.Some? ::
               BlockOf(b, project).until.Some? && BlockOf(a, project).until.value <= BlockOf(b, project).until.value
    requires facts != [] && facts[0].ProjectDenied? ==>
               var until := BlockOf(b, facts[0].project).until; until.Some? && facts[0].until <= until.value
    ensures forall k | 0 <= k < |b.trail| && b.trail[k].ProjectDenied? ::
              var until := BlockOf(b, b.trail[k].project).until; until.Some? && b.trail[k].until <= until.value
  {
    forall k | 0 <= k < |b.trail| && b.trail[k].ProjectDenied?
      ensures var until := BlockOf(b, b.trail[k].project).until; until.Some? && b.trail[k].until <= until.value
    {
      if k < |a.trail| {
        assert b.trail[k] == a.trail[k];
      }
    }
  }

  lemma FinishedBlocks(db: Db, w: Write)
    requires DbValid(db) && Allowed(db, w) && w.Finishing?
    ensures Perform(db, w).blocks ==
              if Denies(db, w) then
                db.blocks[ProjectOf(db, w.claim.attempt) :=
                  RecordDenial(BlockOf(db, ProjectOf(db, w.claim.attempt)), w.time, w.decision.retryAt)]
              else db.blocks
  {
    hide DbValid, FinishLocked, KeepsTokens;
    FinishTokens(db, w.claim, w.decision, w.time);
  }

  lemma WriteTokens(db: Db, w: Write)
    requires DbValid(db) && Allowed(db, w)
    ensures !Grants(db, w) ==> KeepsTokens(db, Perform(db, w))
    ensures !w.Finishing? ==> KeepsApprovals(db, Perform(db, w))
  {
    hide DbValid, DbEvolves, KeepsTokens, KeepsApprovals, KeepsAuth, KeepsCommits, KeepsEvidence,
      ClaimLocked, FinishLocked;
    match w
    case Claiming(id, jobRevision, time) => ClaimTokens(db, id, jobRevision, time);
    case Finishing(claim, decision, time) => FinishTokens(db, claim, decision, time);
    case _ =>
      WriteKeeps(db, w);
      WriteFramed(db, w);
      AuthTokens(db, Perform(db, w));
  }

  lemma ClaimsKept(db: Db, w: Write)
    requires DbValid(db) && Allowed(db, w) && ClaimsOrdered(db)
    ensures ClaimsOrdered(Perform(db, w))
  {
    hide DbValid, Perform, Allowed, Denies, Commits, NewFacts, Grants;
    var b, facts := TrailAfter(db, w);
    WriteTokens(db, w);
    if Grants(db, w) {
      GrantedToken(db, w);
    }
    forall k: nat, claim | ClaimedAt(b.trail, k, claim)
      ensures && Present(b, claim.attempt)
              && var auth := AttemptAt(b, claim.attempt).auth;
                 && 0 < claim.generation <= auth.generation
                 && (claim.generation == auth.generation ==> claim.projectGeneration == auth.projectGeneration)
    {
      if k < |db.trail| {
        assert ClaimedAt(db.trail, k, claim);
      }
    }
    forall j: nat, k: nat, c, d |
      j < k && ClaimedAt(b.trail, j, c) && ClaimedAt(b.trail, k, d) && c.attempt == d.attempt
      ensures c.generation < d.generation
    {
      assert ClaimedAt(db.trail, j, c);
      if k < |db.trail| {
        assert ClaimedAt(db.trail, k, d);
      }
    }
  }

  lemma GrantedToken(db: Db, w: Write)
    requires DbValid(db) && Allowed(db, w) && Grants(db, w)
    ensures w.Claiming? && Addressable(db, w.attempt)
    ensures var b := Perform(db, w);
            && Present(b, w.attempt) && ProjectOf(b, w.attempt) == ProjectOf(db, w.attempt)
            && AttemptAt(b, w.attempt).auth.generation == AttemptAt(db, w.attempt).auth.generation + 1
            && AttemptAt(b, w.attempt).auth.projectGeneration == BlockOf(db, ProjectOf(db, w.attempt)).generation
            && AttemptAt(b, w.attempt).auth.approvedAt.None?
            && b.clock == w.time
            && NewFacts(db, w) == [Claimed(Claim(w.attempt, AttemptAt(b, w.attempt).auth.generation,
                                                AttemptAt(b, w.attempt).auth.projectGeneration), w.time)]
            && forall other: AttemptId | other != w.attempt ::
                 && (Present(b, other) <==> Present(db, other))
                 && (Present(db, other) ==>
                       AttemptAt(b, other) == AttemptAt(db, other) && ProjectOf(b, other) == ProjectOf(db, other))
  {
    hide DbValid, ClaimVerdictOf, ClaimAuthorization, IntentEligible;
    ClaimTokens(db, w.attempt, w.jobRevision, w.time);
    FactKinds(db, w);
  }

  lemma BackedKept(db: Db, w: Write)
    requires DbValid(db) && Allowed(db, w) && BlocksCount(db) && ClaimsOrdered(db) && Backed(db)
    ensures Backed(Perform(db, w))
  {
    hide DbValid, Perform, Allowed, Denies, Commits, NewFacts, Grants;
    var b, facts := TrailAfter(db, w);
    FactKinds(db, w);
    WriteTokens(db, w);
    if w.Finishing? {
      FinishedTokens(db, w);
    }
    forall id: AttemptId | Present(b, id)
      ensures AttemptAt(b, id).auth.approvedAt.Some? ==> AttemptAt(b, id).auth.generation > 0
      ensures AttemptAt(b, id).auth.generation > 0 ==> exists k: nat :: Backing(b, id, k)
    {
      if Grants(db, w) {
        GrantedToken(db, w);
        if id == w.attempt {
          assert b.trail[..|db.trail|] == db.trail;
          assert Backing(b, id, |db.trail|);
        }
      }
      if Present(db, id) && !(Grants(db, w) && id == w.attempt) && AttemptAt(db, id).auth.generation > 0 {
        var k: nat :| Backing(db, id, k);
        assert Backing(b, id, k);
      }
    }
  }

  lemma FinishedTokens(db: Db, w: Write)
    requires DbValid(db) && Allowed(db, w) && w.Finishing? && ClaimsOrdered(db)
    ensures 0 < w.claim.generation
    ensures !Grants(db, w) && Perform(db, w).clock == w.time && db.clock <= w.time
    ensures forall id: AttemptId | Present(db, id) ::
              Present(Perform(db, w), id) &&
              (AttemptAt(Perform(db, w), id).auth.approvedAt == AttemptAt(db, id).auth.approvedAt
                || (AttemptAt(Perform(db, w), id).auth.approvedAt == Some(w.time)
                    && AttemptAt(db, id).auth.generation == w.claim.generation))
  {
    hide DbValid, FinishLocked, KeepsTokens;
    FinishTokens(db, w.claim, w.decision, w.time);
    var k :| 0 <= k < |db.trail| && db.trail[k].Claimed? && db.trail[k].claim == w.claim;
    assert ClaimedAt(db.trail, k, w.claim);
  }

  // ------------------------------------------------------------------- the dispatch

  /** What the gate saw when it committed. */
  lemma CommitPermitted(db: Db, w: Write)
    requires DbValid(db) && Allowed(db, w) && Commits(db, w)
    ensures w.Gating? && Present(db, w.attempt) && db.clock == w.time
    ensures var id := w.attempt;
            var block := BlockOf(db, ProjectOf(db, id));
            && !InsideBlock(block, w.time)
            && (db.deliveries[id.operation].saved.authorizationRequired ==>
                  UsableApproval(AttemptAt(db, id).auth, block, w.time) && AttemptAt(db, id).auth.approvedAt.Some?)
  {
    hide RowsValid, IntentEligible;
    ValidAddressable(db, w.attempt);
  }

  lemma NewDispatchSound(db: Db, w: Write)
    requires DbValid(db) && Allowed(db, w) && Commits(db, w)
    requires BlocksCount(db) && Backed(db)
    ensures var b := Perform(db, w);
            |b.trail| == |db.trail| + 1 && b.trail[|db.trail|] == Dispatched(w.attempt, db.deliveries[w.attempt.operation].saved.recipient, w.time)
    ensures var b := Perform(db, w); Present(b, w.attempt) && Settled(AttemptAt(b, w.attempt)) && Sound(b, |db.trail|)
  {
    hide DbValid, Perform, Allowed, Denies, Commits, NewFacts, Grants, KeepsTokens, KeepsApprovals;
    CommitPermitted(db, w);
    var id := w.attempt;
    var b, facts := TrailAfter(db, w);
    FactKinds(db, w);
    CommittedAuth(db, w);
    if db.deliveries[id.operation].saved.authorizationRequired {
      var k: nat :| Backing(db, id, k);
      DenialsGrow(db.trail, k, ProjectOf(db, id));
      assert Supports(b, id, k, |db.trail|);
    }
  }

  lemma CommittedAuth(db: Db, w: Write)
    requires DbValid(db) && Allowed(db, w) && Commits(db, w)
    ensures w.Gating? && Present(db, w.attempt)
    ensures var b := Perform(db, w);
            && Present(b, w.attempt) && Settled(AttemptAt(b, w.attempt))
            && AttemptAt(b, w.attempt).auth == AttemptAt(db, w.attempt).auth
            && b.deliveries[w.attempt.operation].saved == db.deliveries[w.attempt.operation].saved
  {
    hide DbValid, Perform, Allowed, RowsValid, KeepsCommits, KeepsEvidence, GateVerdictAt, Follows;
    var id := w.attempt;
    var b := Perform(db, w);
    WriteFramed(db, w);
    WriteKeeps(db, w);
    assert Evolves(db.deliveries[id.operation], b.deliveries[id.operation]);
    assert AuthOf(b.deliveries[id.operation], id.index) == AuthOf(db.deliveries[id.operation], id.index);
    CommitWrites(db, w);
    KnownSettled(b, id);
  }

  lemma SoundKept(a: Db, b: Db, k: nat)
    requires k < |a.trail| && a.trail[k].Dispatched? && Present(a, a.trail[k].attempt)
    requires Settled(AttemptAt(a, a.trail[k].attempt)) && Sound(a, k)
    requires DbEvolves(a, b)
    ensures b.trail[k] == a.trail[k] && Present(b, b.trail[k].attempt)
    ensures Settled(AttemptAt(b, b.trail[k].attempt)) && Sound(b, k)
  {
    hide Sound;
    var id := a.trail[k].attempt;
    assert Evolves(a.deliveries[id.operation], b.deliveries[id.operation]);
    assert Follows(AttemptAt(a, id), AttemptAt(b, id));
    SoundStays(a, b, k);
  }

  lemma SoundStays(a: Db, b: Db, k: nat)
    requires k < |a.trail| && a.trail[k].Dispatched? && Present(a, a.trail[k].attempt) && Sound(a, k)
    requires a.trail <= b.trail
    requires var id := a.trail[k].attempt;
             && Present(b, id)
             && AttemptAt(b, id).auth == AttemptAt(a, id).auth
             && b.deliveries[id.operation].saved == a.deliveries[id.operation].saved
    ensures Sound(b, k)
  {
    var id := a.trail[k].attempt;
    forall j | 0 <= j < k && IsDenial(b.trail[j], ProjectOf(b, id)) ensures b.trail[j].until <= b.trail[k].time {
      assert b.trail[j] == a.trail[j];
    }
    if a.deliveries[id.operation].saved.authorizationRequired {
      var j: nat :| j < k && Supports(a, id, j, k);
      forall i | j <= i < k ensures !IsDenial(b.trail[i], ProjectOf(b, id)) {
        assert b.trail[i] == a.trail[i];
      }
      assert Supports(b, id, j, k);
    }
  }

  lemma DispatchesKept(db: Db, w: Write)
    requires DbValid(db) && Allowed(db, w) && Fenced(db)
    ensures DispatchesSound(Perform(db, w))
  {
    hide DbValid, DbEvolves, Perform, Allowed, Denies, Commits, NewFacts, Grants, Sound, Settled, BlocksCount,
      ClaimsOrdered, Backed;
    WriteKeeps(db, w);
    var b, facts := TrailAfter(db, w);
    forall k | 0 <= k < |b.trail| && b.trail[k].Dispatched?
      ensures Present(b, b.trail[k].attempt) && Settled(AttemptAt(b, b.trail[k].attempt)) && Sound(b, k)
    {
      if k < |db.trail| {
        assert b.trail[k] == db.trail[k];
        SoundKept(db, b, k);
      } else {
        NewDispatchSound(db, w);
      }
    }
  }

  lemma FencedInductive()
    ensures Inductive(Fenced)
  {
    hide DbValid, Allowed, Perform, BlocksCount, ClaimsOrdered, Backed, DispatchesSound;
    forall db: Db, w: Write | Allowed(db, w) && DbValid(db) && Fenced(db)
      ensures Fenced(Perform(db, w))
    {
      BlocksKept(db, w);
      ClaimsKept(db, w);
      BackedKept(db, w);
      DispatchesKept(db, w);
    }
  }

  lemma FencedHolds(db: Db)
    requires Reachable(db)
    ensures DbValid(db) && Fenced(db)
  {
    hide DbValid, Inductive, Reachable;
    FencedInductive();
    ReachableHas(db, Fenced);
  }

  // ------------------------------------------------------------------ what it means

  /** In every reachable state, every committed dispatch happened outside all project blocks recorded before
      it; where the operation needs the authority, on an unexpired approval whose claim preceded it with no
      denial of the project in between. */
  lemma DispatchStandsOnItsClaim(db: Db, k: nat)
    requires Reachable(db) && k < |db.trail| && db.trail[k].Dispatched?
    ensures Present(db, db.trail[k].attempt) && Sound(db, k)
  {
    hide DbValid, Reachable, Sound;
    FencedHolds(db);
  }

  /** A decision that belongs to a superseded claim changes no row, no block and no fact. */
  lemma StaleDecisionChangesNothing(db: Db, j: nat, k: nat, claim: Claim, newer: Claim, decision: AuthorityDecision,
                                    expiryTime: Time, time: Time)
    requires Reachable(db)
    requires j < k && ClaimedAt(db.trail, j, claim) && ClaimedAt(db.trail, k, newer) && newer.attempt == claim.attempt
    ensures FinishAttempt(db, claim, decision, expiryTime, time) ==
              Tick(ExpireOperation(db, claim.attempt.operation, expiryTime), time)
  {
    hide DbValid, DbEvolves, Reachable, Backed, BlocksCount, DispatchesSound;
    FencedHolds(db);
    var id := claim.attempt;
    var expired := ExpireOperation(db, id.operation, expiryTime);
    assert newer.generation <= AttemptAt(db, id).auth.generation;
    assert claim.generation < newer.generation;
    ExpireValid(db, id.operation, expiryTime);
    ValidAddressable(db, id);
    EvolvedLater(db, expired, id);
    var d := expired.deliveries[id.operation];
    assert !Decides(d.attempts[id.index], claim.generation);
    assert expired.deliveries[id.operation := d] == expired.deliveries;
  }

  lemma EvolvedLater(a: Db, b: Db, id: AttemptId)
    requires DbEvolves(a, b) && Addressable(a, id)
    ensures Addressable(b, id) && AttemptAt(a, id).auth.generation <= AttemptAt(b, id).auth.generation
  {
    AddressableLater(a, b, id);
  }
}
