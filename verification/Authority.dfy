/** Projects, grants, runtime resources and the administrative commands that change them. */
module Authority {
  import opened Prelude
  import opened Records
  import Quotas

  datatype Lifecycle = Enabled | Disabled | Retired

  datatype ResourceKind = Account | Instance | Policy

  datatype ResourceKey = ResourceKey(kind: ResourceKind, id: Id)

  /** `account` is the owner of an instance; other kinds ignore it. `settings` stands for the saved configuration. */
  datatype Resource = Resource(
    state: Lifecycle,
    epoch: nat,
    revision: nat,
    configurationRevision: nat,
    account: Id,
    scopes: seq<Id>,
    settings: Id)

  datatype ProjectState = ProjectActive | ProjectSuspended | ProjectRetired

  datatype Project = Project(
    state: ProjectState,
    sendEpoch: nat,
    authorizationRequired: bool,
    sendLimit15m: nat,
    sendLimit24h: nat)

  datatype PrincipalGrant = PrincipalGrant(project: Id, principal: Id, revoked: bool)

  datatype RuntimeGrant = RuntimeGrant(project: Id, resource: ResourceKey, revoked: bool)

  datatype RevisionKey = RevisionKey(resource: ResourceKey, revision: nat)

  /** Grant ids are fresh: a grant's id is its index. `revisions` maps a saved configuration
      revision to whether it is still valid. */
  datatype World = World(
    projects: map<Id, Project>,
    principalGrants: seq<PrincipalGrant>,
    resources: map<ResourceKey, Resource>,
    runtimeGrants: seq<RuntimeGrant>,
    revisions: map<RevisionKey, bool>,
    scopes: map<Id, Quotas.SharedLimit>)

  // ------------------------------------------------------------- runtime/store.ts

  /** The first grant of the resource to the project that is not revoked. */
  function ActiveGrantFrom(grants: seq<RuntimeGrant>, project: Id, resource: ResourceKey, from: nat): (g: Option<nat>)
    ensures g.Some? ==> from <= g.value < |grants| && grants[g.value] == RuntimeGrant(project, resource, false)
    ensures g.None? ==> forall k | from <= k < |grants| :: grants[k] != RuntimeGrant(project, resource, false)
    decreases |grants| - from
  {
    if from >= |grants| then None
    else if grants[from] == RuntimeGrant(project, resource, false) then Some(from)
    else ActiveGrantFrom(grants, project, resource, from + 1)
  }

  function ActiveGrant(w: World, project: Id, resource: ResourceKey): Option<nat> {
    ActiveGrantFrom(w.runtimeGrants, project, resource, 0)
  }

  function PrincipalGrantFrom(grants: seq<PrincipalGrant>, project: Id, principal: Id, from: nat): (g: Option<nat>)
    ensures g.Some? ==> from <= g.value < |grants| && grants[g.value] == PrincipalGrant(project, principal, false)
    ensures g.None? ==> forall k | from <= k < |grants| :: grants[k] != PrincipalGrant(project, principal, false)
    decreases |grants| - from
  {
    if from >= |grants| then None
    else if grants[from] == PrincipalGrant(project, principal, false) then Some(from)
    else PrincipalGrantFrom(grants, project, principal, from + 1)
  }

  function FindPrincipalGrant(w: World, project: Id, principal: Id): Option<nat> {
    PrincipalGrantFrom(w.principalGrants, project, principal, 0)
  }

  function InstanceKey(id: Id): ResourceKey { ResourceKey(Instance, id) }

  function AccountKey(id: Id): ResourceKey { ResourceKey(Account, id) }

  function PolicyKey(id: Id): ResourceKey { ResourceKey(Policy, id) }

  predicate RevisionValid(w: World, resource: ResourceKey, revision: nat) {
    RevisionKey(resource, revision) in w.revisions && w.revisions[RevisionKey(resource, revision)]
  }

  predicate EnabledResource(w: World, resource: ResourceKey) {
    resource in w.resources && w.resources[resource].state.Enabled?
  }

  /** `instanceAuthority`: with a saved grant only that grant counts, and only while unrevoked. */
  function InstanceAuthority(w: World, project: Id, instance: Id, saved: Option<nat>): Option<StepAuthority> {
    if InstanceKey(instance) !in w.resources then None
    else
      var i := w.resources[InstanceKey(instance)];
      if AccountKey(i.account) !in w.resources then None
      else
        var account := w.resources[AccountKey(i.account)];
        var grant :=
          if saved.None? then
            var own := ActiveGrant(w, project, InstanceKey(instance));
            if own.Some? then own else ActiveGrant(w, project, AccountKey(i.account))
          else if saved.value < |w.runtimeGrants|
                  && (w.runtimeGrants[saved.value] == RuntimeGrant(project, InstanceKey(instance), false)
                      || w.runtimeGrants[saved.value] == RuntimeGrant(project, AccountKey(i.account), false))
          then saved else None;
        if grant.None? || !i.state.Enabled? || !account.state.Enabled? then None
        else Some(StepAuthority(instance, account.epoch, i.epoch, grant.value))
  }

  function CaptureSteps(w: World, project: Id, instances: seq<Id>): seq<StepAuthority> {
    if instances == [] then []
    else
      var rest := CaptureSteps(w, project, instances[..|instances|-1]);
      var authority := InstanceAuthority(w, project, instances[|instances|-1], None);
      if authority.Some? then rest + [authority.value] else rest
  }

  function CaptureAuthority(w: World, project: Id, policy: Id, instances: seq<Id>): Result<CapturedAuthority> {
    var grant := ActiveGrant(w, project, PolicyKey(policy));
    if !EnabledResource(w, PolicyKey(policy)) || grant.None? then Failure(PolicyNotAllowed)
    else Success(CapturedAuthority(grant.value, w.resources[PolicyKey(policy)].epoch, CaptureSteps(w, project, instances)))
  }

  // ------------------------------------------------------------ projects/store.ts

  function RequireAccess(w: World, project: Id, principal: Id, sending: bool): Result<nat> {
    var grant := FindPrincipalGrant(w, project, principal);
    if grant.None? then Failure(ProjectAccessDenied)
    else if project !in w.projects then Failure(ProjectAccessDenied)
    else if sending && !w.projects[project].state.ProjectActive? then Failure(ProjectInactive)
    else Success(grant.value)
  }

  // -------------------------------------- projects/mutate.ts and runtime/mutate.ts

  datatype Command =
    | CreateProject(project: Id, settings: Project, principals: seq<Id>)
    | UpdateProject(project: Id, settings: Project)
    | GrantPrincipal(project: Id, principal: Id)
    | RevokePrincipal(project: Id, principal: Id)
    | ChangeProjectState(project: Id, state: ProjectState)
    | CreateResource(resource: ResourceKey, account: Id, scopes: seq<Id>, configuration: Id)
    | SaveScope(scope: Id, limits: Quotas.SharedLimit)
    | UpdateConfiguration(resource: ResourceKey, configuration: Id)
    | Transition(resource: ResourceKey, lifecycle: Lifecycle)
    | Invalidate(resource: ResourceKey, revision: nat)
    | GrantRuntime(project: Id, resource: ResourceKey)
    | RevokeRuntime(project: Id, resource: ResourceKey)

  function AddGrants(grants: seq<PrincipalGrant>, project: Id, principals: seq<Id>): seq<PrincipalGrant> {
    if principals == [] then grants
    else AddGrants(grants, project, principals[..|principals|-1]) + [PrincipalGrant(project, principals[|principals|-1], false)]
  }

  /** Leaving the active state starts a new send epoch; returning to it does not restore the old one. */
  function SetProjectState(p: Project, state: ProjectState): Project {
    p.(state := state, sendEpoch := p.sendEpoch + if state.ProjectActive? then 0 else 1)
  }

  function SetLifecycle(r: Resource, state: Lifecycle): Resource {
    r.(state := state, epoch := r.epoch + if state.Enabled? then 0 else 1, revision := r.revision + 1)
  }

  function Touch(w: World, resource: ResourceKey): World
    requires resource in w.resources
  {
    w.(resources := w.resources[resource := w.resources[resource].(revision := w.resources[resource].revision + 1)])
  }

  /** One accepted administrative command; rejected and unchanged ones leave the world as it is.
      Permissions, expected revisions and replay receipts only reject more. */
  function Administer(w: World, command: Command): World {
    match command
    case CreateProject(id, settings, principals) =>
      if id in w.projects then w
      else w.(projects := w.projects[id := settings.(state := ProjectActive, sendEpoch := 1)],
              principalGrants := AddGrants(w.principalGrants, id, principals))
    case UpdateProject(id, settings) =>
      if id !in w.projects then w
      else w.(projects := w.projects[id := w.projects[id].(
                authorizationRequired := settings.authorizationRequired,
                sendLimit15m := settings.sendLimit15m,
                sendLimit24h := settings.sendLimit24h)])
    case GrantPrincipal(id, principal) =>
      if id !in w.projects || FindPrincipalGrant(w, id, principal).Some? then w
      else w.(principalGrants := w.principalGrants + [PrincipalGrant(id, principal, false)])
    case RevokePrincipal(id, principal) =>
      var grant := FindPrincipalGrant(w, id, principal);
      if grant.None? then w
      else w.(principalGrants := w.principalGrants[grant.value := PrincipalGrant(id, principal, true)])
    case ChangeProjectState(id, state) =>
      if id !in w.projects || w.projects[id].state == state || w.projects[id].state.ProjectRetired? then w
      else w.(projects := w.projects[id := SetProjectState(w.projects[id], state)])
    case CreateResource(resource, account, scopes, configuration) =>
      if resource in w.resources then w
      else w.(resources := w.resources[resource := Resource(Disabled, 1, 1, 1, account, scopes, configuration)],
              revisions := w.revisions[RevisionKey(resource, 1) := true])
    case SaveScope(scope, limits) => w.(scopes := w.scopes[scope := limits.(scope := scope)])
    case UpdateConfiguration(resource, configuration) =>
      if resource !in w.resources || w.resources[resource].state.Retired? || resource.kind.Account?
         || w.resources[resource].settings == configuration then w
      else
        var next := w.resources[resource].revision + 1;
        if RevisionKey(resource, next) in w.revisions then w
        else w.(resources := w.resources[resource := w.resources[resource].(
                  revision := next, configurationRevision := next, settings := configuration)],
                revisions := w.revisions[RevisionKey(resource, next) := true])
    case Transition(resource, state) =>
      if resource !in w.resources || w.resources[resource].state == state || w.resources[resource].state.Retired? then w
      else w.(resources := w.resources[resource := SetLifecycle(w.resources[resource], state)])
    case Invalidate(resource, revision) =>
      if resource !in w.resources || resource.kind.Account? || !RevisionValid(w, resource, revision) then w
      else Touch(w, resource).(revisions := w.revisions[RevisionKey(resource, revision) := false])
    case GrantRuntime(project, resource) =>
      if project !in w.projects || resource !in w.resources || w.resources[resource].state.Retired?
         || ActiveGrant(w, project, resource).Some? then w
      else Touch(w, resource).(runtimeGrants := w.runtimeGrants + [RuntimeGrant(project, resource, false)])
    case RevokeRuntime(project, resource) =>
      var grant := ActiveGrant(w, project, resource);
      if project !in w.projects || resource !in w.resources || grant.None? then w
      else Touch(w, resource).(runtimeGrants := w.runtimeGrants[grant.value := RuntimeGrant(project, resource, true)])
  }
}
