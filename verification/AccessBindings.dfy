/** The group and role choices offered at a scope, and the role bindings the commands accept there. */
module AccessBindings {
  import opened Basics
  import opened Lists
  import opened Scopes
  import opened PolicyTables
  import opened PolicyDecision
  import opened AccessSnapshots
  import opened AccessCommands

  // ---------------------------------------------------------------------------------------------
  // Role compatibility
  // ---------------------------------------------------------------------------------------------

  /** Some permission of the role means something at this level: platform-only ones at the platform, others below. */
  predicate HasEffective(role: AccessRole, permissions: seq<AccessPermission>, platformScope: bool) {
    exists p <- permissions :: p.key in role.permissions && p.platformOnly == platformScope
  }

  method RoleHasEffectivePermission(role: AccessRole, permissions: seq<AccessPermission>, platformScope: bool)
    returns (found: bool)
    requires forall i, j | 0 <= i < j < |permissions| :: permissions[i].key != permissions[j].key
    ensures found <==> HasEffective(role, permissions, platformScope)
  {
    var metadata: map<string, AccessPermission> := map[];
    for i := 0 to |permissions|
      invariant forall key :: key in metadata <==> exists j :: 0 <= j < i && permissions[j].key == key
      invariant forall j | 0 <= j < i :: metadata[permissions[j].key] == permissions[j]
    {
      metadata := metadata[permissions[i].key := permissions[i]];
    }
    for i := 0 to |role.permissions|
      invariant forall j | 0 <= j < i && role.permissions[j] in metadata ::
                  metadata[role.permissions[j]].platformOnly != platformScope
    {
      var key := role.permissions[i];
      if key !in metadata {
        continue;
      }
      if platformScope && metadata[key].platformOnly {
        assert metadata[key] in permissions;
        return true;
      }
      if !platformScope && !metadata[key].platformOnly {
        assert metadata[key] in permissions;
        return true;
      }
    }
    return false;
  }

  // ---------------------------------------------------------------------------------------------
  // Requests
  // ---------------------------------------------------------------------------------------------

  datatype BindingRequest = BindingRequest(
    groupId: Uuid, organizationId: Uuid, scopeKind: ScopeKind, projectId: Uuid, environmentId: Option<Uuid>,
    applicationId: Option<Uuid>)

  function CommandScope(r: BindingRequest): Result<Scope, ScopeError> {
    match r.scopeKind
    case ProjectKind => NewProjectScope(r.organizationId, r.projectId)
    case EnvironmentKind =>
      if r.environmentId.None? then Err(ScopeError("environment ID is required"))
      else NewEnvironmentScope(r.organizationId, r.projectId, r.environmentId.value)
    case ApplicationKind =>
      if r.environmentId.None? || r.applicationId.None?
          then Err(ScopeError("environment and Application IDs are required"))
      else NewApplicationScope(r.organizationId, r.projectId, r.environmentId.value, r.applicationId.value)
    case _ => Err(ScopeError("unsupported scope kind"))
  }

  /** The request that names a scope. */
  function RequestAt(scope: Scope, groupId: Uuid): BindingRequest {
    BindingRequest(groupId, scope.organizationId, scope.kind, scope.projectId, EnvironmentColumn(scope),
        ApplicationColumn(scope))
  }

  predicate GroupMayBind(g: AccessGroup, organizationId: Uuid, projectId: Uuid, platform: bool) {
    || platform
    || (g.ownerId.Some? && ((g.ownerKind.ProjectOwned? && g.ownerId.value == projectId)
                            || (g.ownerKind.OrganizationOwned? && g.ownerId.value == organizationId)))
  }

  predicate ProjectManagerRole(r: AccessRole) {
    r.systemKey == Some("project_manager")
  }

  function PlatformBindingCheck(w: World, p: Principal, r: BindingRequest, roleId: Uuid): Option<AccessError> {
    var platform := PlatformAllowed(w, p);
    if Refusal(platform).Some? then Refusal(platform)
    else
      var group := FindGroup(w.records.groups, r.groupId);
      var role := FindRole(w.records.roles, roleId);
      if group.None? || role.None? || group.value.disabled || !role.value.active
         || !group.value.ownerKind.PlatformOwned? || !role.value.ownerKind.PlatformOwned?
      then Some(NotFound)
      else if !HasEffective(role.value, w.records.permissions, true) then Some(InvalidAccessRequest)
      else None
  }

  function ScopedBindingCheck(w: World, p: Principal, r: BindingRequest, roleId: Uuid): Option<AccessError> {
    var scope := CommandScope(r);
    if scope.Err? then Some(InvalidAccessRequest)
    else
      var allowed := Decide(w, p, GROUP_MANAGE, scope.value);
      var platform := PlatformAllowed(w, p);
      if allowed.Err? || platform.Err? then Some(Unevaluable)
      else if !allowed.value && !platform.value then Some(NotFound)
      else
        var group := FindGroup(w.records.groups, r.groupId);
        var role := FindRole(w.records.roles, roleId);
        if group.None? || role.None? || group.value.disabled || !role.value.active
           || (!platform.value && ProjectManagerRole(role.value))
           || !GroupMayBind(group.value, r.organizationId, r.projectId, platform.value)
        then Some(NotFound)
        else if (role.value.ownerKind.ProjectOwned? && role.value.ownerId != Some(r.projectId))
                || !HasEffective(role.value, w.records.permissions, false)
        then Some(InvalidAccessRequest)
        else None
  }

  /** Binding one role. */
  function CreateBindingCheck(w: World, p: Principal, r: BindingRequest, roleId: Uuid): Option<AccessError> {
    if r.scopeKind.PlatformKind? then PlatformBindingCheck(w, p, r, roleId) else ScopedBindingCheck(w, p, r, roleId)
  }

  // ---------------------------------------------------------------------------------------------
  // Options at a scope
  // ---------------------------------------------------------------------------------------------

  datatype Options = Options(groups: seq<AccessGroup>, roles: seq<AccessRole>, permissions: seq<AccessPermission>)

  function OfferedGroup(scope: Scope, platform: bool): AccessGroup -> bool {
    (g: AccessGroup) =>
      !g.disabled
      && if scope.kind.PlatformKind? then g.ownerKind.PlatformOwned?
         else GroupMayBind(g, scope.organizationId, scope.projectId, platform)
  }

  function OfferedRole(scope: Scope, platform: bool, permissions: seq<AccessPermission>): AccessRole -> bool {
    (r: AccessRole) =>
      r.active && HasEffective(r, permissions, scope.kind.PlatformKind?)
      && if scope.kind.PlatformKind? then r.ownerKind.PlatformOwned?
         else !(r.ownerKind.ProjectOwned? && r.ownerId.Some? && r.ownerId.value != scope.projectId)
              && (platform || !ProjectManagerRole(r))
  }

  function OfferedPermission(scope: Scope): AccessPermission -> bool {
    (p: AccessPermission) => scope.kind.PlatformKind? || p.projectRoleDelegable
  }

  /** The caller's standing at a resolved scope: a platform manager or not, or a refusal. */
  function Standing(w: World, p: Principal, scope: Option<Scope>): Result<bool, AccessError> {
    var platform := PlatformAllowed(w, p);
    if platform.Err? then platform
    else if scope.None? then Err(NotFound)
    else if scope.value.kind.PlatformKind? then if platform.value then Ok(true) else Err(NotFound)
    else
      var allowed := Decide(w, p, GROUP_MANAGE, scope.value);
      if allowed.Err? then allowed else if !allowed.value && !platform.value then Err(NotFound) else platform
  }

  function ScopeOptionsOn(w: World, p: Principal, scope: Option<Scope>): Result<Options, AccessError> {
    var platform := Standing(w, p, scope);
    if platform.Err? then Err(platform.error)
    else Ok(Options(
      Filter(OfferedGroup(scope.value, platform.value), w.records.groups),
      Filter(OfferedRole(scope.value, platform.value, w.records.permissions), w.records.roles),
      Filter(OfferedPermission(scope.value), w.records.permissions)))
  }

  method OfferRoles(w: World, scope: Scope, platform: bool) returns (roles: seq<AccessRole>)
    requires DistinctKeys(w.records)
    ensures roles == Filter(OfferedRole(scope, platform, w.records.permissions), w.records.roles)
  {
    ghost var offered := OfferedRole(scope, platform, w.records.permissions);
    roles := [];
    for i := 0 to |w.records.roles|
      invariant roles == Filter(offered, w.records.roles[..i])
    {
      FilterNext(offered, w.records.roles, i);
      var role := w.records.roles[i];
      var effective := RoleHasEffectivePermission(role, w.records.permissions, scope.kind.PlatformKind?);
      if !role.active || !effective {
        continue;
      }
      if scope.kind.PlatformKind? {
        if role.ownerKind.PlatformOwned? {
          roles := roles + [role];
        }
        continue;
      }
      if role.ownerKind.ProjectOwned? && role.ownerId.Some? && role.ownerId.value != scope.projectId {
        continue;
      }
      if !platform && ProjectManagerRole(role) {
        continue;
      }
      roles := roles + [role];
    }
    assert w.records.roles[..|w.records.roles|] == w.records.roles;
  }

  method OfferGroups(w: World, scope: Scope, platform: bool) returns (groups: seq<AccessGroup>)
    ensures groups == Filter(OfferedGroup(scope, platform), w.records.groups)
  {
    ghost var offered := OfferedGroup(scope, platform);
    groups := [];
    for i := 0 to |w.records.groups|
      invariant groups == Filter(offered, w.records.groups[..i])
    {
      FilterNext(offered, w.records.groups, i);
      var group := w.records.groups[i];
      if group.disabled {
        continue;
      }
      if scope.kind.PlatformKind? {
        if group.ownerKind.PlatformOwned? {
          groups := groups + [group];
        }
        continue;
      }
      if GroupMayBind(group, scope.organizationId, scope.projectId, platform) {
        groups := groups + [group];
      }
    }
    assert w.records.groups[..|w.records.groups|] == w.records.groups;
  }

  method ScopeOptions(w: World, p: Principal, scope: Option<Scope>) returns (r: Result<Options, AccessError>)
    requires DistinctKeys(w.records)
    ensures r == ScopeOptionsOn(w, p, scope)
  {
    var platform := Standing(w, p, scope);
    if platform.Err? {
      return Err(platform.error);
    }
    var groups := OfferGroups(w, scope.value, platform.value);
    var roles := OfferRoles(w, scope.value, platform.value);
    var permissions := Keep(OfferedPermission(scope.value), w.records.permissions);
    return Ok(Options(groups, roles, permissions));
  }

  lemma CommandScopeOfRequest(scope: Scope, groupId: Uuid)
    requires scope.Valid() && !scope.kind.PlatformKind?
    ensures CommandScope(RequestAt(scope, groupId)) == Ok(scope)
  {
  }

  /**
   The pairs offered at a scope are the pairs the command accepts there, but for a project-owned role without
   an owner: such a row, which the table forbids, would be offered and refused.
   */
  lemma OfferedPairsAreAccepted(w: World, p: Principal, scope: Scope, g: AccessGroup, r: AccessRole)
    requires WellKeyed(w) && scope.Valid() && g in w.records.groups && r in w.records.roles
    ensures var options := ScopeOptionsOn(w, p, Some(scope));
            CreateBindingCheck(w, p, RequestAt(scope, g.id), r.id) == None <==>
            (options.Ok? && g in options.value.groups && r in options.value.roles
             && !(r.ownerKind.ProjectOwned? && r.ownerId.None?))
  {
    FindGroupFinds(w.records.groups, g);
    FindRoleFinds(w.records.roles, r);
    OfferedRows(w, p, scope, g, r);
    if !scope.kind.PlatformKind? {
      CommandScopeOfRequest(scope, g.id);
    }
  }

  /** Both rows are offered: each passes its filter. */
  lemma OfferedRows(w: World, p: Principal, scope: Scope, g: AccessGroup, r: AccessRole)
    requires g in w.records.groups && r in w.records.roles
    ensures var options := ScopeOptionsOn(w, p, Some(scope));
            var platform := Standing(w, p, Some(scope));
            && (options.Ok? <==> platform.Ok?)
            && (platform.Ok? ==>
                  && (g in options.value.groups <==> OfferedGroup(scope, platform.value)(g))
                  && (r in options.value.roles <==> OfferedRole(scope, platform.value, w.records.permissions)(r)))
  {
    var platform := Standing(w, p, Some(scope));
    if platform.Ok? {
      FilterMembers(OfferedGroup(scope, platform.value), w.records.groups);
      FilterMembers(OfferedRole(scope, platform.value, w.records.permissions), w.records.roles);
    }
  }

  // ---------------------------------------------------------------------------------------------
  // Several roles at once
  // ---------------------------------------------------------------------------------------------

  ghost predicate Distinct(ids: seq<Uuid>) {
    forall i, j | 0 <= i < j < |ids| :: ids[i] != ids[j]
  }

  /** One to twenty roles, all identified, none twice. */
  ghost predicate RoleListIsValid(roleIds: seq<Uuid>) {
    1 <= |roleIds| <= 20 && NIL_UUID !in roleIds && Distinct(roleIds)
  }

  function RoleRefusal(w: World, r: BindingRequest, platform: bool, roleId: Uuid): Option<AccessError> {
    var role := FindRole(w.records.roles, roleId);
    if role.None? || !role.value.active || (r.scopeKind.PlatformKind? && !role.value.ownerKind.PlatformOwned?)
       || (!platform && ProjectManagerRole(role.value))
    then Some(NotFound)
    else if !r.scopeKind.PlatformKind? && role.value.ownerKind.ProjectOwned? && role.value.ownerId != Some(r.projectId)
        then Some(InvalidAccessRequest)
    else if !HasEffective(role.value, w.records.permissions, r.scopeKind.PlatformKind?) then Some(InvalidAccessRequest)
    else None
  }

  /** The caller's standing for a request that names its own scope. */
  function RequestStanding(w: World, p: Principal, r: BindingRequest): Result<bool, AccessError> {
    var platform := PlatformAllowed(w, p);
    if platform.Err? then platform
    else if r.scopeKind.PlatformKind? then if platform.value then platform else Err(NotFound)
    else
      var scope := CommandScope(r);
      if scope.Err? then Err(InvalidAccessRequest)
      else
        var allowed := Decide(w, p, GROUP_MANAGE, scope.value);
        if allowed.Err? then allowed else if !allowed.value && !platform.value then Err(NotFound) else platform
  }

  function GroupRefusal(w: World, r: BindingRequest, platform: bool): Option<AccessError> {
    var group := FindGroup(w.records.groups, r.groupId);
    if group.None? || group.value.disabled then Some(NotFound)
    else if r.scopeKind.PlatformKind? then if group.value.ownerKind.PlatformOwned? then None else Some(NotFound)
    else if GroupMayBind(group.value, r.organizationId, r.projectId, platform) then None else Some(NotFound)
  }

  predicate AcceptedAlone(w: World, p: Principal, r: BindingRequest, roleId: Uuid) {
    var platform := RequestStanding(w, p, r);
    platform.Ok? && GroupRefusal(w, r, platform.value) == None && RoleRefusal(w, r, platform.value, roleId) == None
  }

  /** One role is accepted alone exactly when the shared checks and its own check pass. */
  lemma SingleCheckSplits(w: World, p: Principal, r: BindingRequest, roleId: Uuid)
    ensures CreateBindingCheck(w, p, r, roleId) == None <==> AcceptedAlone(w, p, r, roleId)
  {
  }

  /**
   The check of several roles, in the order it is made. It accepts exactly the lists of 1 to 20 distinct
   identifiers each of which is accepted alone.
   */
  method CreateBindingsCheck(w: World, p: Principal, r: BindingRequest, roleIds: seq<Uuid>)
    returns (refusal: Option<AccessError>)
    requires DistinctKeys(w.records)
    ensures refusal == None <==>
            && 1 <= |roleIds| <= 20 && 0 !in roleIds
            && (forall i, j | 0 <= i < j < |roleIds| :: roleIds[i] != roleIds[j])
            && forall roleId <- roleIds :: CreateBindingCheck(w, p, r, roleId) == None
    ensures !RoleListIsValid(roleIds) ==> refusal == Some(InvalidAccessRequest)
    ensures RoleListIsValid(roleIds) && RequestStanding(w, p, r).Err?
            ==> refusal == Some(RequestStanding(w, p, r).error)
  {
    forall roleId | roleId in roleIds
      ensures CreateBindingCheck(w, p, r, roleId) == None <==> AcceptedAlone(w, p, r, roleId)
    {
      SingleCheckSplits(w, p, r, roleId);
    }
    if |roleIds| == 0 || |roleIds| > 20 {
      return Some(InvalidAccessRequest);
    }
    var seen := {};
    for i := 0 to |roleIds|
      invariant seen == set id | id in roleIds[..i]
      invariant NIL_UUID !in roleIds[..i] && Distinct(roleIds[..i])
    {
      assert roleIds[..i + 1] == roleIds[..i] + [roleIds[i]];
      if roleIds[i] == NIL_UUID {
        return Some(InvalidAccessRequest);
      }
      if roleIds[i] in seen {
        assert exists j :: 0 <= j < i && roleIds[j] == roleIds[i];
        return Some(InvalidAccessRequest);
      }
      seen := seen + {roleIds[i]};
    }
    assert roleIds[..|roleIds|] == roleIds;
    var platform := RequestStanding(w, p, r);
    assert roleIds[0] in roleIds;
    if platform.Err? {
      return Some(platform.error);
    }
    var group := GroupRefusal(w, r, platform.value);
    if group.Some? {
      return group;
    }
    for i := 0 to |roleIds|
      invariant forall roleId <- roleIds[..i] :: RoleRefusal(w, r, platform.value, roleId) == None
    {
      var role := RoleRefusal(w, r, platform.value, roleIds[i]);
      if role.Some? {
        assert roleIds[i] in roleIds;
        return role;
      }
    }
    assert roleIds[..|roleIds|] == roleIds;
    return None;
  }
}
