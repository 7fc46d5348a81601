/** Projects and runtime resources as administrators change them: tables updated in place, one method for each
    kind of change, each with exactly the effect of the corresponding command. */
module Registry {
  import opened Prelude
  import opened Authority
  import Quotas

  class RuntimeRegistry {
    var projects: map<Id, Project>
    var principalGrants: seq<PrincipalGrant>
    var resources: map<ResourceKey, Resource>
    var runtimeGrants: seq<RuntimeGrant>
    var revisions: map<RevisionKey, bool>
    var scopes: map<Id, Quotas.SharedLimit>

    function Contents(): World
      reads this
    {
      World(projects, principalGrants, resources, runtimeGrants, revisions, scopes)
    }

    constructor ()
      ensures Contents() == World(map[], [], map[], [], map[], map[])
    {
      projects, resources, revisions, scopes := map[], map[], map[], map[];
      principalGrants, runtimeGrants := [], [];
    }

    // --------------------------------------------------------------- projects/mutate.ts

    method CreateProjectWith(id: Id, settings: Project, principals: seq<Id>) returns (changed: bool)
      modifies this
      ensures Contents() == Administer(old(Contents()), CreateProject(id, settings, principals))
      ensures changed <==> id !in old(projects)
    {
      if id in projects {
        return false;
      }
      projects := projects[id := settings.(state := ProjectActive, sendEpoch := 1)];
      ghost var before := principalGrants;
      for i := 0 to |principals|
        invariant principalGrants == AddGrants(before, id, principals[..i])
        invariant projects == old(projects)[id := settings.(state := ProjectActive, sendEpoch := 1)]
        invariant resources == old(resources) && runtimeGrants == old(runtimeGrants)
        invariant revisions == old(revisions) && scopes == old(scopes)
      {
        assert principals[..i + 1][..i] == principals[..i];
        principalGrants := principalGrants + [PrincipalGrant(id, principals[i], false)];
      }
      assert principals[..|principals|] == principals;
      return true;
    }

    method UpdateSettings(id: Id, settings: Project) returns (changed: bool)
      modifies this`projects
      ensures Contents() == Administer(old(Contents()), UpdateProject(id, settings))
      ensures changed <==> id in old(projects) && projects != old(projects)
    {
      if id !in projects {
        return false;
      }
      var before := projects[id];
      if before.authorizationRequired == settings.authorizationRequired
         && before.sendLimit15m == settings.sendLimit15m && before.sendLimit24h == settings.sendLimit24h {
        assert projects == projects[id := before];
        return false;
      }
      projects := projects[id := before.(
        authorizationRequired := settings.authorizationRequired,
        sendLimit15m := settings.sendLimit15m,
        sendLimit24h := settings.sendLimit24h)];
      return true;
    }

    method GrantTo(id: Id, principal: Id) returns (changed: bool)
      modifies this`principalGrants
      ensures Contents() == Administer(old(Contents()), GrantPrincipal(id, principal))
      ensures changed <==> principalGrants != old(principalGrants)
    {
      if id !in projects || FindPrincipalGrant(Contents(), id, principal).Some? {
        return false;
      }
      principalGrants := principalGrants + [PrincipalGrant(id, principal, false)];
      return true;
    }

    method RevokeFrom(id: Id, principal: Id) returns (changed: bool)
      modifies this`principalGrants
      ensures Contents() == Administer(old(Contents()), RevokePrincipal(id, principal))
      ensures changed <==> principalGrants != old(principalGrants)
    {
      var grant := FindPrincipalGrant(Contents(), id, principal);
      if grant.None? {
        return false;
      }
      principalGrants := principalGrants[grant.value := principalGrants[grant.value].(revoked := true)];
      return true;
    }

    /** Leaving the active state starts a new send epoch. */
    method ChangeState(id: Id, state: ProjectState) returns (changed: bool)
      modifies this`projects
      ensures Contents() == Administer(old(Contents()), ChangeProjectState(id, state))
      ensures changed <==> projects != old(projects)
      ensures changed ==> id in old(projects) && id in projects
      ensures changed ==> projects[id].sendEpoch == old(projects)[id].sendEpoch + if state.ProjectActive? then 0 else 1
    {
      if id !in projects || projects[id].state == state || projects[id].state.ProjectRetired? {
        return false;
      }
      var epoch := projects[id].sendEpoch + if state.ProjectActive? then 0 else 1;
      projects := projects[id := projects[id].(state := state, sendEpoch := epoch)];
      return true;
    }

    // ---------------------------------------------------------------- runtime/mutate.ts

    method BumpRevision(resource: ResourceKey)
      requires resource in resources
      modifies this`resources
      ensures resources == old(resources)[resource :=
                old(resources)[resource].(revision := old(resources)[resource].revision + 1)]
    {
      resources := resources[resource := resources[resource].(revision := resources[resource].revision + 1)];
    }

    method InsertResource(resource: ResourceKey, account: Id, scopeIds: seq<Id>, configuration: Id) returns (changed: bool)
      modifies this`resources, this`revisions
      ensures Contents() == Administer(old(Contents()), CreateResource(resource, account, scopeIds, configuration))
      ensures changed <==> resource !in old(resources)
    {
      if resource in resources {
        return false;
      }
      resources := resources[resource := Resource(Disabled, 1, 1, 1, account, scopeIds, configuration)];
      revisions := revisions[RevisionKey(resource, 1) := true];
      return true;
    }

    /** A changed configuration is saved under the next revision. */
    method UpdateResource(resource: ResourceKey, configuration: Id) returns (changed: bool)
      modifies this`resources, this`revisions
      ensures Contents() == Administer(old(Contents()), UpdateConfiguration(resource, configuration))
      ensures changed <==> resources != old(resources)
    {
      if resource !in resources || resources[resource].state.Retired? || resource.kind.Account? {
        return false;
      }
      if resources[resource].settings == configuration {
        return false;
      }
      var next := resources[resource].revision + 1;
      if RevisionKey(resource, next) in revisions {
        return false;
      }
      revisions := revisions[RevisionKey(resource, next) := true];
      resources := resources[resource := resources[resource].(configurationRevision := next, settings := configuration)];
      BumpRevision(resource);
      return true;
    }

    method SaveScopeLimits(scope: Id, limits: Quotas.SharedLimit)
      modifies this`scopes
      ensures Contents() == Administer(old(Contents()), SaveScope(scope, limits))
    {
      scopes := scopes[scope := limits.(scope := scope)];
    }

    method TransitionResource(resource: ResourceKey, state: Lifecycle) returns (changed: bool)
      modifies this`resources
      ensures Contents() == Administer(old(Contents()), Transition(resource, state))
      ensures changed <==> resources != old(resources)
    {
      if resource !in resources || resources[resource].state == state || resources[resource].state.Retired? {
        return false;
      }
      var r := resources[resource];
      resources := resources[resource := r.(state := state, epoch := r.epoch + if state.Enabled? then 0 else 1)];
      BumpRevision(resource);
      return true;
    }

    method InvalidateRevision(resource: ResourceKey, revision: nat) returns (changed: bool)
      modifies this`resources, this`revisions
      ensures Contents() == Administer(old(Contents()), Invalidate(resource, revision))
      ensures changed <==> revisions != old(revisions)
      ensures resource in old(resources) && !resource.kind.Account? ==> !RevisionValid(Contents(), resource, revision)
    {
      if resource !in resources || resource.kind.Account? || !RevisionValid(Contents(), resource, revision) {
        return false;
      }
      revisions := revisions[RevisionKey(resource, revision) := false];
      BumpRevision(resource);
      return true;
    }

    method ChangeAssignment(project: Id, resource: ResourceKey, granting: bool) returns (changed: bool)
      modifies this`resources, this`runtimeGrants
      ensures Contents() ==
                Administer(old(Contents()), if granting then GrantRuntime(project, resource) else RevokeRuntime(project, resource))
      ensures changed <==> resources != old(resources)
    {
      if project !in projects || resource !in resources {
        return false;
      }
      var grant := ActiveGrant(Contents(), project, resource);
      if granting {
        if resources[resource].state.Retired? || grant.Some? {
          return false;
        }
        runtimeGrants := runtimeGrants + [RuntimeGrant(project, resource, false)];
      } else {
        if grant.None? {
          return false;
        }
        runtimeGrants := runtimeGrants[grant.value := RuntimeGrant(project, resource, true)];
      }
      BumpRevision(resource);
      return true;
    }
  }
}
