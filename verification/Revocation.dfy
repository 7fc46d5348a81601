/** Permission captured by a send intent only shrinks, whatever administrators do afterwards. */
module Revocation {
  import opened Prelude
  import opened Records
  import opened Authority
  import opened Eligibility

  // --------------------------------------------------- administration is monotone

  /** At an unchanged epoch, what was active stays active; a later epoch never returns. */
  ghost predicate ProjectsAdvance(v: World, w: World) {
    forall id | id in v.projects ::
      && id in w.projects
      && v.projects[id].sendEpoch <= w.projects[id].sendEpoch
      && (v.projects[id].sendEpoch == w.projects[id].sendEpoch && v.projects[id].state.ProjectActive? ==>
            w.projects[id].state.ProjectActive?)
  }

  ghost predicate ResourcesAdvance(v: World, w: World) {
    forall key | key in v.resources ::
      && key in w.resources
      && w.resources[key].account == v.resources[key].account
      && v.resources[key].epoch <= w.resources[key].epoch
      && (v.resources[key].epoch == w.resources[key].epoch && v.resources[key].state.Enabled? ==>
            w.resources[key].state.Enabled?)
  }

  ghost predicate GrantsAdvance(v: World, w: World) {
    && |v.principalGrants| <= |w.principalGrants|
    && (forall g | 0 <= g < |v.principalGrants| ::
          w.principalGrants[g] == v.principalGrants[g] || w.principalGrants[g] == v.principalGrants[g].(revoked := true))
    && |v.runtimeGrants| <= |w.runtimeGrants|
    && (forall g | 0 <= g < |v.runtimeGrants| ::
          w.runtimeGrants[g] == v.runtimeGrants[g] || w.runtimeGrants[g] == v.runtimeGrants[g].(revoked := true))
  }

  ghost predicate RevisionsAdvance(v: World, w: World) {
    forall key | key in v.revisions :: key in w.revisions && (w.revisions[key] ==> v.revisions[key])
  }

  ghost predicate Advances(v: World, w: World) {
    ProjectsAdvance(v, w) && ResourcesAdvance(v, w) && GrantsAdvance(v, w) && RevisionsAdvance(v, w)
  }

  lemma AdvancesTransitive(u: World, v: World, w: World)
    requires Advances(u, v) && Advances(v, w)
    ensures Advances(u, w)
  {
    assert ProjectsAdvance(u, w) && ResourcesAdvance(u, w) && RevisionsAdvance(u, w);
    forall g | 0 <= g < |u.principalGrants|
      ensures w.principalGrants[g] == u.principalGrants[g] || w.principalGrants[g] == u.principalGrants[g].(revoked := true)
    {
      assert v.principalGrants[g] == u.principalGrants[g] || v.principalGrants[g] == u.principalGrants[g].(revoked := true);
    }
    forall g | 0 <= g < |u.runtimeGrants|
      ensures w.runtimeGrants[g] == u.runtimeGrants[g] || w.runtimeGrants[g] == u.runtimeGrants[g].(revoked := true)
    {
      assert v.runtimeGrants[g] == u.runtimeGrants[g] || v.runtimeGrants[g] == u.runtimeGrants[g].(revoked := true);
    }
  }

  lemma {:induction false} AddGrantsKeeps(grants: seq<PrincipalGrant>, project: Id, principals: seq<Id>)
    ensures |grants| <= |AddGrants(grants, project, principals)|
    ensures forall g | 0 <= g < |grants| :: AddGrants(grants, project, principals)[g] == grants[g]
  {
    if principals != [] {
      AddGrantsKeeps(grants, project, principals[..|principals|-1]);
    }
  }

  /** A saved configuration revision belongs to an existing resource. */
  ghost predicate WorldValid(w: World) {
    forall key | key in w.revisions :: key.resource in w.resources
  }

  lemma GrantsOnlyRevoked(w: World, command: Command)
    ensures GrantsAdvance(w, Administer(w, command))
  {
    if command.CreateProject? {
      AddGrantsKeeps(w.principalGrants, command.project, command.principals);
    }
  }

  lemma ResourcesOnlyAdvance(w: World, command: Command)
    ensures ProjectsAdvance(w, Administer(w, command)) && ResourcesAdvance(w, Administer(w, command))
  {
  }

  lemma RevisionsOnlyInvalidated(w: World, command: Command)
    requires WorldValid(w)
    ensures WorldValid(Administer(w, command)) && RevisionsAdvance(w, Administer(w, command))
  {
  }

  /** No administrative command gives an old epoch, grant or revision back. */
  lemma AdministerAdvances(w: World, command: Command)
    requires WorldValid(w)
    ensures WorldValid(Administer(w, command))
    ensures Advances(w, Administer(w, command))
  {
    GrantsOnlyRevoked(w, command);
    ResourcesOnlyAdvance(w, command);
    RevisionsOnlyInvalidated(w, command);
  }

  // -------------------------------------------------------- what a capture records

  ghost predicate StepCaptured(w: World, project: Id, step: StepAuthority) {
    && step.grant < |w.runtimeGrants|
    && InstanceKey(step.instance) in w.resources
    && (var i := w.resources[InstanceKey(step.instance)];
        && step.instanceEpoch <= i.epoch && (step.instanceEpoch == i.epoch ==> i.state.Enabled?)
        && AccountKey(i.account) in w.resources
        && (var account := w.resources[AccountKey(i.account)];
            step.accountEpoch <= account.epoch && (step.accountEpoch == account.epoch ==> account.state.Enabled?)))
  }

  /** Each captured epoch is past, or current and then still active. */
  ghost predicate IntentCaptured(w: World, saved: Saved, intent: Intent) {
    && intent.project == saved.project
    && intent.project in w.projects
    && (var p := w.projects[intent.project];
        intent.sendEpoch <= p.sendEpoch && (intent.sendEpoch == p.sendEpoch ==> p.state.ProjectActive?))
    && intent.principalGrant < |w.principalGrants|
    && intent.authority.policyGrant < |w.runtimeGrants|
    && PolicyKey(saved.policy) in w.resources
    && (var policy := w.resources[PolicyKey(saved.policy)];
        && intent.authority.policyEpoch <= policy.epoch
        && (intent.authority.policyEpoch == policy.epoch ==> policy.state.Enabled?))
    && (forall k | 0 <= k < |intent.authority.steps| :: StepCaptured(w, saved.project, intent.authority.steps[k]))
  }

  /** The saved route references configuration revisions that exist. */
  ghost predicate RouteKnown(w: World, saved: Saved) {
    && RevisionKey(PolicyKey(saved.policy), saved.policyRevision) in w.revisions
    && forall k | 0 <= k < |saved.steps| ::
         RevisionKey(InstanceKey(saved.steps[k].instance), saved.steps[k].instanceRevision) in w.revisions
  }

  lemma CapturedAdvances(v: World, w: World, saved: Saved, intent: Intent)
    requires Advances(v, w) && IntentCaptured(v, saved, intent)
    ensures IntentCaptured(w, saved, intent)
  {
    forall k | 0 <= k < |intent.authority.steps| ensures StepCaptured(w, saved.project, intent.authority.steps[k]) {
      assert StepCaptured(v, saved.project, intent.authority.steps[k]);
    }
  }

  lemma RouteKnownAdvances(v: World, w: World, saved: Saved)
    requires Advances(v, w) && RouteKnown(v, saved)
    ensures RouteKnown(w, saved)
  {
  }

  lemma InstanceAuthorityCaptured(w: World, project: Id, instance: Id, saved: Option<nat>)
    ensures var a := InstanceAuthority(w, project, instance, saved);
            a.Some? ==> a.value.instance == instance && StepCaptured(w, project, a.value)
  {
  }

  lemma {:induction false} CaptureStepsCaptured(w: World, project: Id, instances: seq<Id>)
    ensures forall k | 0 <= k < |CaptureSteps(w, project, instances)| ::
              StepCaptured(w, project, CaptureSteps(w, project, instances)[k])
  {
    if instances != [] {
      CaptureStepsCaptured(w, project, instances[..|instances|-1]);
      InstanceAuthorityCaptured(w, project, instances[|instances|-1], None);
    }
  }

  /** A freshly captured intent records the present and is eligible. */
  lemma FreshCapture(w: World, saved: Saved, principal: Id, instances: seq<Id>, intent: Intent)
    requires intent.project == saved.project
    requires RequireAccess(w, saved.project, principal, true) == Success(intent.principalGrant)
    requires CaptureAuthority(w, saved.project, saved.policy, instances) == Success(intent.authority)
    requires intent.sendEpoch == w.projects[saved.project].sendEpoch
    ensures IntentCaptured(w, saved, intent)
    ensures IntentEligible(w, saved, intent)
  {
    CaptureStepsCaptured(w, saved.project, instances);
  }

  // ------------------------------------------------------------ revocation is final

  /** An eligible intent was eligible at every earlier moment since its capture. */
  lemma EligibleEarlier(v: World, w: World, saved: Saved, intent: Intent)
    requires Advances(v, w) && IntentCaptured(v, saved, intent) && IntentEligible(w, saved, intent)
    ensures IntentEligible(v, saved, intent)
  {
  }

  /** What the intent may use at all: the route steps open to it while it is eligible. */
  ghost predicate UsableStep(w: World, saved: Saved, position: nat, intent: Intent)
    requires position < |saved.steps|
  {
    IntentEligible(w, saved, intent) && PolicyOpen(w, saved) && StepAuthorized(w, saved, position, Some(intent))
  }

  lemma {:induction false} FoundStep(steps: seq<StepAuthority>, instance: Id)
    ensures FindStep(steps, instance).Some? ==> FindStep(steps, instance).value in steps
    ensures FindStep(steps, instance).None? ==> forall k | 0 <= k < |steps| :: steps[k].instance != instance
  {
    if steps != [] {
      FoundStep(steps[1..], instance);
    }
  }

  lemma UsableEarlier(v: World, w: World, saved: Saved, position: nat, intent: Intent)
    requires position < |saved.steps|
    requires Advances(v, w) && IntentCaptured(v, saved, intent) && RouteKnown(v, saved)
    requires UsableStep(w, saved, position, intent)
    ensures UsableStep(v, saved, position, intent)
  {
    EligibleEarlier(v, w, saved, intent);
    assert PolicyOpen(v, saved) by {
      assert v.runtimeGrants[intent.authority.policyGrant] == RuntimeGrant(saved.project, PolicyKey(saved.policy), false);
    }
    var step := saved.steps[position];
    FoundStep(intent.authority.steps, step.instance);
    var grant := SavedGrant(Some(intent), step.instance);
    var current := InstanceAuthority(w, saved.project, step.instance, grant).value;
    assert current in intent.authority.steps;
    assert StepCaptured(v, saved.project, current);
    assert grant.Some?;
    assert InstanceAuthority(v, saved.project, step.instance, grant) == Some(current);
  }

  // ------------------------------------------------------------------- whole runs

  function AdministerAll(w: World, commands: seq<Command>): World {
    if commands == [] then w
    else Administer(AdministerAll(w, commands[..|commands|-1]), commands[|commands|-1])
  }

  lemma {:induction false} AdministrationAdvances(w: World, commands: seq<Command>)
    requires WorldValid(w)
    ensures WorldValid(AdministerAll(w, commands))
    ensures Advances(w, AdministerAll(w, commands))
  {
    if commands != [] {
      var before := AdministerAll(w, commands[..|commands|-1]);
      AdministrationAdvances(w, commands[..|commands|-1]);
      AdministerAdvances(before, commands[|commands|-1]);
      AdvancesTransitive(w, before, AdministerAll(w, commands));
    }
  }

  /** Revocation is permanent: an intent that is not eligible, or a step it may not use, stays so under
      every sequence of commands, including reactivation, re-enabling and new grants. */
  lemma RevocationIsPermanent(w: World, saved: Saved, intent: Intent, commands: seq<Command>)
    requires WorldValid(w) && IntentCaptured(w, saved, intent) && RouteKnown(w, saved)
    ensures !IntentEligible(w, saved, intent) ==> !IntentEligible(AdministerAll(w, commands), saved, intent)
    ensures forall position: nat | position < |saved.steps| ::
              UsableStep(AdministerAll(w, commands), saved, position, intent) ==> UsableStep(w, saved, position, intent)
  {
    var later := AdministerAll(w, commands);
    AdministrationAdvances(w, commands);
    if IntentEligible(later, saved, intent) {
      EligibleEarlier(w, later, saved, intent);
    }
    forall position: nat | position < |saved.steps| && UsableStep(later, saved, position, intent)
      ensures UsableStep(w, saved, position, intent)
    {
      UsableEarlier(w, later, saved, position, intent);
    }
  }
}
