/** Which send intents and which saved route steps may be used now. */
module Eligibility {
  import opened Prelude
  import opened Records
  import opened Routing
  import opened Authority
  import opened Quotas

  /** Everything outside the operation's own rows that eligibility reads. */
  datatype Environment = Environment(
    settings: Settings,
    world: World,
    ledger: Ledger,
    restrictions: map<Id, Time>)

  predicate PrincipalGrantHeld(w: World, intent: Intent) {
    && intent.principalGrant < |w.principalGrants|
    && !w.principalGrants[intent.principalGrant].revoked
  }

  predicate PolicyGrantHeld(w: World, saved: Saved, intent: Intent) {
    && intent.authority.policyGrant < |w.runtimeGrants|
    && w.runtimeGrants[intent.authority.policyGrant] == RuntimeGrant(intent.project, PolicyKey(saved.policy), false)
  }

  predicate IntentEligible(w: World, saved: Saved, intent: Intent) {
    && intent.project in w.projects
    && w.projects[intent.project].state.ProjectActive?
    && w.projects[intent.project].sendEpoch == intent.sendEpoch
    && PrincipalGrantHeld(w, intent)
    && PolicyGrantHeld(w, saved, intent)
    && EnabledResource(w, PolicyKey(saved.policy))
    && w.resources[PolicyKey(saved.policy)].epoch == intent.authority.policyEpoch
  }

  /** The policy is enabled, granted by any unrevoked grant, and its saved revision is valid. */
  predicate PolicyOpen(w: World, saved: Saved) {
    && EnabledResource(w, PolicyKey(saved.policy))
    && ActiveGrant(w, saved.project, PolicyKey(saved.policy)).Some?
    && RevisionValid(w, PolicyKey(saved.policy), saved.policyRevision)
  }

  function FindStep(steps: seq<StepAuthority>, instance: Id): Option<StepAuthority> {
    if steps == [] then None
    else if steps[0].instance == instance then Some(steps[0])
    else FindStep(steps[1..], instance)
  }

  function SavedGrant(intent: Option<Intent>, instance: Id): Option<nat> {
    if intent.None? then None
    else
      var step := FindStep(intent.value.authority.steps, instance);
      if step.Some? then Some(step.value.grant) else None
  }

  /** The step may be used by the intent (or by a new command when there is no intent), leaving aside
      time and budgets. */
  predicate StepAuthorized(w: World, saved: Saved, position: nat, intent: Option<Intent>)
    requires position < |saved.steps|
  {
    var step := saved.steps[position];
    var current := InstanceAuthority(w, saved.project, step.instance, SavedGrant(intent, step.instance));
    && current.Some?
    && RevisionValid(w, InstanceKey(step.instance), step.instanceRevision)
    && (intent.Some? ==> current.value in intent.value.authority.steps)
  }

  predicate DeliveryWindowFits(step: RouteStep, remaining: Time) {
    step.minDeliveryWindow + step.sendTimeout < remaining
  }

  function SharedScopes(w: World, scopes: seq<Id>): seq<SharedLimit> {
    if scopes == [] then []
    else
      var rest := SharedScopes(w, scopes[..|scopes|-1]);
      if scopes[|scopes|-1] in w.scopes then rest + [w.scopes[scopes[|scopes|-1]]] else rest
  }

  function AccountOf(w: World, instance: Id): Id {
    if InstanceKey(instance) in w.resources then w.resources[InstanceKey(instance)].account else 0
  }

  function ScopesOf(w: World, resource: ResourceKey): seq<Id> {
    if resource in w.resources then w.resources[resource].scopes else []
  }

  function CommonLimits(env: Environment, saved: Saved): seq<Limit> {
    if saved.project !in env.world.projects then []
    else
      var p := env.world.projects[saved.project];
      CommonSendLimits(env.settings, p.sendLimit15m, p.sendLimit24h, saved.recipient, saved.project)
  }

  function SendLimits(env: Environment, saved: Saved, instance: Id): seq<Limit> {
    var account := AccountOf(env.world, instance);
    CommonLimits(env, saved) +
    ProviderSendLimits(instance, account,
      SharedScopes(env.world, ScopesOf(env.world, InstanceKey(instance)) + ScopesOf(env.world, AccountKey(account))))
  }

  function Restriction(env: Environment, instance: Id, time: Time): Option<Time> {
    if instance in env.restrictions && env.restrictions[instance] > time then Some(env.restrictions[instance]) else None
  }

  function Candidate(env: Environment, saved: Saved, time: Time, intent: Option<Intent>, position: nat): Option<Availability>
    requires position < |saved.steps|
  {
    var step := saved.steps[position];
    if !StepAuthorized(env.world, saved, position, intent) || !DeliveryWindowFits(step, saved.expiresAt - time) then None
    else Some(Availability(position, step.instance,
      Later(RetryAt(env.ledger, SendLimits(env, saved, step.instance), time), Restriction(env, step.instance, time))))
  }

  /** The available steps among the first `count`, in route order. */
  function Candidates(env: Environment, saved: Saved, time: Time, intent: Option<Intent>, count: nat): seq<Availability>
    requires count <= |saved.steps|
  {
    if count == 0 then []
    else
      var rest := Candidates(env, saved, time, intent, count - 1);
      var last := Candidate(env, saved, time, intent, count - 1);
      if last.Some? then rest + [last.value] else rest
  }

  function AvailableProviders(env: Environment, saved: Saved, time: Time, intent: Option<Intent>): seq<Availability> {
    if PolicyOpen(env.world, saved) then Candidates(env, saved, time, intent, |saved.steps|) else []
  }

  function FirstOpen(available: seq<Availability>): Option<Availability> {
    if available == [] then None
    else if available[0].retryAt.None? then Some(available[0])
    else FirstOpen(available[1..])
  }

  /** The first of the options that reopen earliest. */
  function Earliest(available: seq<Availability>): Option<Availability> {
    if available == [] then None
    else
      var rest := Earliest(available[1..]);
      if rest.None? || rest.value.retryAt.None? || available[0].retryAt.None?
         || available[0].retryAt.value <= rest.value.retryAt.value
      then Some(available[0]) else rest
  }

  function ChooseAvailable(available: seq<Availability>): Option<Availability> {
    if FirstOpen(available).Some? then FirstOpen(available) else Earliest(available)
  }

  function LaterThan(available: seq<Availability>, position: nat): seq<Availability> {
    if available == [] then []
    else if available[0].position > position then [available[0]] + LaterThan(available[1..], position)
    else LaterThan(available[1..], position)
  }

  function NextProvider(available: seq<Availability>, position: nat): Option<Availability> {
    ChooseAvailable(LaterThan(available, position))
  }

  datatype Choice = ByChannel(channel: Id) | ByProvider(instance: Id)

  predicate Matches(saved: Saved, choice: Choice, option: Availability) {
    && option.position < |saved.steps|
    && saved.steps[option.position].manualSelectionAllowed
    && match choice
       case ByChannel(channel) => saved.steps[option.position].channel == channel
       case ByProvider(instance) => option.instance == instance
  }

  function Matching(saved: Saved, choice: Choice, available: seq<Availability>): seq<Availability> {
    if available == [] then []
    else if Matches(saved, choice, available[0]) then [available[0]] + Matching(saved, choice, available[1..])
    else Matching(saved, choice, available[1..])
  }

  function ResolveChoice(saved: Saved, choice: Option<Choice>, available: seq<Availability>): Result<Availability> {
    if choice.Some? && !saved.manualSelectionEnabled then Failure(DeliveryOptionNotAllowed)
    else
      var candidates := if choice.None? then available else Matching(saved, choice.value, available);
      var selected := ChooseAvailable(candidates);
      if selected.Some? then Success(selected.value)
      else Failure(if choice.None? then DeliveryUnavailable else DeliveryOptionNotAllowed)
  }

  function FindInstance(available: seq<Availability>, instance: Id): Option<Availability> {
    if available == [] then None
    else if available[0].instance == instance then Some(available[0])
    else FindInstance(available[1..], instance)
  }

  /** `userSendBlock` after `withAdmissionCooldown`: what still blocks an explicit send, if anything. */
  function UserSendBlock(d: Delivery, time: Time, admission: Option<Time>, retryAt: Option<Time>): Option<DomainError> {
    var next := Latest(admission, d.op.nextUserSendAt);
    if SendCount(d) >= d.saved.maxSends then Some(RateLimited)
    else if retryAt.Some? then Some(RateLimited)
    else if time < next then Some(CooldownActive)
    else None
  }

  // ------------------------------------------------------------ what choices mean

  lemma {:induction false} FirstOpenMember(available: seq<Availability>)
    ensures FirstOpen(available).Some? ==> FirstOpen(available).value in available && FirstOpen(available).value.retryAt.None?
    ensures FirstOpen(available).None? ==> forall k | 0 <= k < |available| :: available[k].retryAt.Some?
  {
    if available != [] {
      FirstOpenMember(available[1..]);
    }
  }

  lemma {:induction false} EarliestMember(available: seq<Availability>)
    ensures available == [] <==> Earliest(available).None?
    ensures Earliest(available).Some? ==> Earliest(available).value in available
    ensures (forall k | 0 <= k < |available| :: available[k].retryAt.Some?) ==>
              forall k | 0 <= k < |available| :: Earliest(available).value.retryAt.value <= available[k].retryAt.value
  {
    if available != [] {
      EarliestMember(available[1..]);
    }
  }

  /** An open option is preferred, otherwise the one that reopens first; nothing only when nothing is offered. */
  lemma ChosenIsBest(available: seq<Availability>)
    ensures var chosen := ChooseAvailable(available);
            && (chosen.None? <==> available == [])
            && (chosen.Some? ==>
                  && chosen.value in available
                  && (chosen.value.retryAt.Some? ==>
                        forall k | 0 <= k < |available| ::
                          available[k].retryAt.Some? && chosen.value.retryAt.value <= available[k].retryAt.value))
  {
    FirstOpenMember(available);
    EarliestMember(available);
  }

  lemma {:induction false} LaterThanMembers(available: seq<Availability>, position: nat)
    ensures forall o :: o in LaterThan(available, position) <==> o in available && o.position > position
  {
    if available != [] {
      LaterThanMembers(available[1..], position);
    }
  }

  lemma {:induction false} MatchingMembers(saved: Saved, choice: Choice, available: seq<Availability>)
    ensures forall o :: o in Matching(saved, choice, available) <==> o in available && Matches(saved, choice, o)
  {
    if available != [] {
      MatchingMembers(saved, choice, available[1..]);
    }
  }

  /** Exactly the authorized steps whose window fits are offered, each once, with its own retry instant. */
  lemma {:induction false} CandidatesExact(env: Environment, saved: Saved, time: Time, intent: Option<Intent>, count: nat)
    requires count <= |saved.steps|
    ensures forall o :: o in Candidates(env, saved, time, intent, count) <==>
              o.position < count && Candidate(env, saved, time, intent, o.position) == Some(o)
  {
    if count > 0 {
      CandidatesExact(env, saved, time, intent, count - 1);
    }
  }

  lemma AvailableExact(env: Environment, saved: Saved, time: Time, intent: Option<Intent>, o: Availability)
    ensures o in AvailableProviders(env, saved, time, intent) <==>
              PolicyOpen(env.world, saved) && o.position < |saved.steps|
              && Candidate(env, saved, time, intent, o.position) == Some(o)
  {
    CandidatesExact(env, saved, time, intent, |saved.steps|);
  }

  /** The next provider is an available step strictly after the given position. */
  lemma NextIsLater(env: Environment, saved: Saved, time: Time, intent: Option<Intent>, position: nat)
    ensures var next := NextProvider(AvailableProviders(env, saved, time, intent), position);
            next.Some? ==>
              && position < next.value.position < |saved.steps|
              && PolicyOpen(env.world, saved)
              && StepAuthorized(env.world, saved, next.value.position, intent)
  {
    var available := AvailableProviders(env, saved, time, intent);
    ChosenIsBest(LaterThan(available, position));
    LaterThanMembers(available, position);
    var next := NextProvider(available, position);
    if next.Some? {
      AvailableExact(env, saved, time, intent, next.value);
    }
  }

  lemma {:induction false} FoundInstance(available: seq<Availability>, instance: Id)
    ensures var found := FindInstance(available, instance);
            && (found.Some? ==> found.value in available && found.value.instance == instance)
            && (found.None? ==> forall k | 0 <= k < |available| :: available[k].instance != instance)
  {
    if available != [] {
      FoundInstance(available[1..], instance);
    }
  }
}
