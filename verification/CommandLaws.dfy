/**
 What the access commands accept and the lists offer, in terms of the stored records and of the policy's decisions at
 the platform and at projects.
 */
module CommandLaws {
  import opened Basics
  import opened Scopes
  import opened PolicyTables
  import opened PolicyDecision
  import opened Lists
  import opened AccessSnapshots
  import opened AccessCommands
  import opened AccessBindings

  /** The policy lets the caller manage the platform. */
  ghost predicate RunsPlatform(w: World, p: Principal) {
    Allowed(w.rules, p, "platform.manage", Scope(0, 0, 0, 0, PlatformKind))
  }

  /** The policy gives the caller a permission at this active project. */
  ghost predicate HoldsAt(w: World, p: Principal, act: string, project: Uuid) {
    exists s <- w.projects ::
      s.projectId == project && Allowed(w.rules, p, act, Scope(s.organizationId, project, 0, 0, ProjectKind))
  }

  /** Platform managers manage every owner's rows, others those of the projects where they hold the permission. */
  ghost predicate Manages(w: World, p: Principal, act: string, kind: OwnerKind, owner: Option<Uuid>) {
    RunsPlatform(w, p) || (kind == ProjectOwned && owner != None && HoldsAt(w, p, act, owner.value))
  }

  lemma PlatformDecisionMeans(w: World, p: Principal)
    ensures PlatformAllowed(w, p) == Ok(true) <==> RunsPlatform(w, p)
    ensures PlatformAllowed(w, p) == Ok(false) <==> !RunsPlatform(w, p) && p.userId != 0
    ensures PlatformAllowed(w, p) == Err(Unevaluable) <==> p.userId == 0
  {
  }

  lemma OwnerDecisionMeans(w: World, p: Principal, act: string, kind: OwnerKind, owner: Option<Uuid>)
    requires WellKeyed(w)
    ensures MayManageOwner(w, p, act, kind, owner) == Ok(true) <==> Manages(w, p, act, kind, owner)
    ensures MayManageOwner(w, p, act, kind, owner) == Ok(false)
            <==> !Manages(w, p, act, kind, owner) && p.userId != 0
    ensures MayManageOwner(w, p, act, kind, owner) == Err(Unevaluable) <==> p.userId == 0
  {
    PlatformDecisionMeans(w, p);
    if owner.Some? {
      FirstFinds(ProjectIs(owner.value), w.projects);
    }
  }

  // ---------------------------------------------------------------------------------------------
  // Loading
  // ---------------------------------------------------------------------------------------------

  /** The snapshot loads for platform managers and for whoever manages groups or roles of some project. */
  lemma LoadMeans(w: World, p: Principal)
    requires WellKeyed(w)
    ensures LoadOn(w, p).Ok? <==>
            RunsPlatform(w, p) || exists s <- w.projects ::
              HoldsAt(w, p, "group.manage", s.projectId) || HoldsAt(w, p, "role.manage", s.projectId)
    ensures p.userId == 0 ==> LoadOn(w, p) == Err(Unevaluable)
    ensures p.userId != 0 && LoadOn(w, p).Err? ==> LoadOn(w, p) == Err(NotFound)
    ensures LoadOn(w, p).Ok? ==> var v := LoadOn(w, p).value;
            && (v.platform <==> RunsPlatform(w, p)) && (v.platform ==> v.records == w.records)
            && (!v.platform ==> v.managedProjects == v.managedGroups + v.managedRoles)
            && (!v.platform ==> v.records == Narrowed(w.records, v.managedProjects))
    ensures LoadOn(w, p).Ok? && !LoadOn(w, p).value.platform ==> forall id ::
              && (id in LoadOn(w, p).value.managedGroups <==> HoldsAt(w, p, "group.manage", id))
              && (id in LoadOn(w, p).value.managedRoles <==> HoldsAt(w, p, "role.manage", id))
  {
    PlatformDecisionMeans(w, p);
    if !RunsPlatform(w, p) && p.userId != 0 && !p.disabled {
      forall id
        ensures HoldsAt(w, p, GROUP_MANAGE, id) <==> id in ManagedProjects(w, p, GROUP_MANAGE)
        ensures HoldsAt(w, p, ROLE_MANAGE, id) <==> id in ManagedProjects(w, p, ROLE_MANAGE)
      {
        ManagedIsHeld(w, p, GROUP_MANAGE, id);
        ManagedIsHeld(w, p, ROLE_MANAGE, id);
      }
    }
  }

  /** Below the platform, an active project without its identifiers cannot be decided, which is reported. */
  lemma MalformedProjectsAreReported(w: World, p: Principal)
    requires p.userId != 0 && !p.disabled && !RunsPlatform(w, p)
    ensures (exists s <- w.projects :: s.organizationId == 0 || s.projectId == 0) <==> LoadOn(w, p) == Err(Unevaluable)
  {
    PlatformDecisionMeans(w, p);
  }

  lemma ManagedIsHeld(w: World, p: Principal, act: string, project: Uuid)
    requires WellKeyed(w) && !p.disabled
    ensures project in ManagedProjects(w, p, act) <==> HoldsAt(w, p, act, project)
  {
    assert Principal(p.userId, false) == p;
  }

  // ---------------------------------------------------------------------------------------------
  // Narrowing
  // ---------------------------------------------------------------------------------------------

  ghost predicate BindingIsIn(b: AccessBinding, projects: set<Uuid>) {
    b.scopeKind != PlatformKind && b.projectId in projects
  }

  ghost predicate OwnedIn(kind: OwnerKind, owner: Option<Uuid>, projects: set<Uuid>) {
    kind == ProjectOwned && owner != None && owner.value in projects
  }

  /** A group shows in some projects when one owns it, or a binding or deny there names it. */
  ghost predicate GroupShows(value: Snapshot, projects: set<Uuid>, id: Uuid) {
    || (exists g <- value.groups :: g.id == id && OwnedIn(g.ownerKind, g.ownerId, projects))
    || (exists b <- value.bindings :: b.groupId == id && BindingIsIn(b, projects))
    || (exists d <- value.denies :: d.groupId == id && d.projectId in projects)
  }

  ghost predicate RoleShows(value: Snapshot, projects: set<Uuid>, id: Uuid) {
    || (exists r <- value.roles :: r.id == id && OwnedIn(r.ownerKind, r.ownerId, projects))
    || (exists b <- value.bindings :: b.roleId == id && BindingIsIn(b, projects))
  }

  /** The records that show in some projects, list by list. */
  lemma NarrowedMeans(value: Snapshot, projects: set<Uuid>)
    ensures var n := Narrowed(value, projects);
            && (forall b :: b in n.bindings <==> b in value.bindings && BindingIsIn(b, projects))
            && (forall d :: d in n.denies <==> d in value.denies && d.projectId in projects)
            && (forall g :: g in n.groups <==> g in value.groups && GroupShows(value, projects, g.id))
            && (forall r :: r in n.roles <==> r in value.roles && RoleShows(value, projects, r.id))
            && (forall m :: m in n.memberships <==> m in value.memberships && GroupShows(value, projects, m.groupId))
            && (forall u :: u in n.users <==>
                 (u in value.users && exists m <- value.memberships ::
                    m.userId == u.id && GroupShows(value, projects, m.groupId)))
            && (forall x :: x in n.permissions <==> x in value.permissions && x.projectRoleDelegable)
  {
    NarrowedMembers(value, projects);
    forall id
      ensures id in GroupIds(value, projects) <==> GroupShows(value, projects, id)
      ensures id in RoleIds(value, projects) <==> RoleShows(value, projects, id)
    {
      ShownIds(value, projects, id);
    }
    FilterMembers(KeptMembership(GroupIds(value, projects)), value.memberships);
  }

  lemma ShownIds(value: Snapshot, projects: set<Uuid>, id: Uuid)
    ensures id in GroupIds(value, projects) <==> GroupShows(value, projects, id)
    ensures id in RoleIds(value, projects) <==> RoleShows(value, projects, id)
  {
    FilterMembers(KeptBinding(projects), value.bindings);
    FilterMembers(KeptDeny(projects), value.denies);
  }

  // ---------------------------------------------------------------------------------------------
  // Commands on one row
  // ---------------------------------------------------------------------------------------------

  /** Platform managers may disable every enabled user but themselves. */
  lemma DisableUserMeans(w: World, p: Principal, id: Uuid)
    ensures DisableUserCheck(w, p, id) == None
            <==> RunsPlatform(w, p) && id != p.userId && exists u <- w.records.users :: u.id == id && !u.disabled
    ensures DisableUserCheck(w, p, id) == Some(SelfDisable) <==> RunsPlatform(w, p) && id == p.userId
    ensures DisableUserCheck(w, p, id) in {None, Some(SelfDisable), Some(Unevaluable), Some(NotFound)}
    ensures DisableUserCheck(w, p, id) == Some(Unevaluable) <==> p.userId == 0
  {
    PlatformDecisionMeans(w, p);
  }

  /** Members are added to the groups the caller manages; those that are not built in may also be disabled. */
  lemma GroupCommandsMean(w: World, p: Principal, g: AccessGroup)
    requires WellKeyed(w) && g in w.records.groups
    ensures AddMembershipCheck(w, p, g.id) == None <==> Manages(w, p, "group.manage", g.ownerKind, g.ownerId)
    ensures DisableGroupCheck(w, p, g.id) == None
            <==> g.systemKey == None && Manages(w, p, "group.manage", g.ownerKind, g.ownerId)
    ensures DisableGroupCheck(w, p, g.id) == Some(ProtectedResource) <==> g.systemKey != None
    ensures p.userId != 0 && g.systemKey == None ==> DisableGroupCheck(w, p, g.id) in {None, Some(NotFound)}
    ensures p.userId != 0 ==> AddMembershipCheck(w, p, g.id) in {None, Some(NotFound)}
  {
    FindGroupFinds(w.records.groups, g);
    OwnerDecisionMeans(w, p, GROUP_MANAGE, g.ownerKind, g.ownerId);
  }

  /** An active role that is not built in is disabled by whoever manages its owner's roles. */
  lemma DisableRoleMeans(w: World, p: Principal, r: AccessRole)
    requires WellKeyed(w) && r in w.records.roles
    ensures DisableRoleCheck(w, p, r.id) == None
            <==> r.active && r.systemKey == None && Manages(w, p, "role.manage", r.ownerKind, r.ownerId)
    ensures DisableRoleCheck(w, p, r.id) == Some(Conflict) <==> !r.active
    ensures DisableRoleCheck(w, p, r.id) == Some(ProtectedResource) <==> r.active && r.systemKey != None
    ensures p.userId != 0 && r.active && r.systemKey == None ==> DisableRoleCheck(w, p, r.id) in {None, Some(NotFound)}
  {
    FindRoleFinds(w.records.roles, r);
    OwnerDecisionMeans(w, p, ROLE_MANAGE, r.ownerKind, r.ownerId);
  }

  /** An active manual membership is revoked by whoever manages its group. */
  lemma RevokeMembershipMeans(w: World, p: Principal, m: AccessMembership, g: AccessGroup)
    requires WellKeyed(w) && m in w.records.memberships && g in w.records.groups && m.groupId == g.id
    ensures RevokeMembershipCheck(w, p, m.id) == None
            <==> m.active && m.source == Manual && Manages(w, p, "group.manage", g.ownerKind, g.ownerId)
    ensures RevokeMembershipCheck(w, p, m.id) == Some(Conflict) <==> !m.active
    ensures RevokeMembershipCheck(w, p, m.id) == Some(ProtectedResource) <==> m.active && m.source != Manual
    ensures p.userId != 0 && m.active && m.source == Manual ==>
              RevokeMembershipCheck(w, p, m.id) in {None, Some(NotFound)}
  {
    FindMembershipFinds(w.records.memberships, m);
    FindGroupFinds(w.records.groups, g);
    OwnerDecisionMeans(w, p, GROUP_MANAGE, g.ownerKind, g.ownerId);
  }

  /** Without a row of this identifier every command answers that there is none, to a caller it can identify. */
  lemma MissingRowsAreNotFound(w: World, p: Principal, id: Uuid)
    ensures (forall g <- w.records.groups :: g.id != id) ==>
              DisableGroupCheck(w, p, id) == AddMembershipCheck(w, p, id) == Some(NotFound)
    ensures (forall r <- w.records.roles :: r.id != id) ==> DisableRoleCheck(w, p, id) == Some(NotFound)
    ensures (forall m <- w.records.memberships :: m.id != id) ==> RevokeMembershipCheck(w, p, id) == Some(NotFound)
  {
    FirstFinds(GroupIs(id), w.records.groups);
    FirstFinds(RoleIs(id), w.records.roles);
    FirstFinds(MembershipIs(id), w.records.memberships);
  }

  // ---------------------------------------------------------------------------------------------
  // What rows offer
  // ---------------------------------------------------------------------------------------------

  /** Every loaded group offers its members, and a disabled one nothing else. */
  lemma GroupsAlwaysOfferMembers(v: Loaded, g: AccessGroup)
    ensures "viewMemberships" in GroupActions(v, g)
    ensures g.disabled ==> GroupActions(v, g) == ["viewMemberships"]
    ensures forall action <- GroupActions(v, g) :: action in ["viewMemberships", "addMember", "disable"]
  {
  }

  // ---------------------------------------------------------------------------------------------
  // Binding a role
  // ---------------------------------------------------------------------------------------------

  /** Some permission of the role is platform-only, or some is not. */
  ghost predicate Grants(w: World, r: AccessRole, platformOnly: bool) {
    exists x <- w.records.permissions :: x.key in r.permissions && x.platformOnly == platformOnly
  }

  /** At the platform: a platform manager binds a live platform role that means something there to such a group. */
  ghost predicate MayBindPlatform(w: World, p: Principal, g: AccessGroup, r: AccessRole) {
    && RunsPlatform(w, p) && !g.disabled && r.active
    && g.ownerKind == PlatformOwned && r.ownerKind == PlatformOwned && Grants(w, r, true)
  }

  /**
   At a resource: platform managers bind any live group; others need the permission to manage groups there, a group of
   the same project or organization, and a role other than the project manager. A project's own role stays in it.
   */
  ghost predicate MayBindAt(w: World, p: Principal, s: Scope, g: AccessGroup, r: AccessRole) {
    && !g.disabled && r.active && Grants(w, r, false)
    && (r.ownerKind == ProjectOwned ==> r.ownerId == Some(s.projectId))
    && (RunsPlatform(w, p)
        || (&& Allowed(w.rules, p, "group.manage", s)
            && r.systemKey != Some("project_manager")
            && ((g.ownerKind == ProjectOwned && g.ownerId == Some(s.projectId))
                || (g.ownerKind == OrganizationOwned && g.ownerId == Some(s.organizationId)))))
  }

  lemma EffectiveMeans(w: World, r: AccessRole, platformOnly: bool)
    ensures HasEffective(r, w.records.permissions, platformOnly) <==> Grants(w, r, platformOnly)
  {
  }

  lemma BindingAtPlatformMeans(w: World, p: Principal, request: BindingRequest, g: AccessGroup, r: AccessRole)
    requires WellKeyed(w) && g in w.records.groups && r in w.records.roles
    requires request.scopeKind == PlatformKind && request.groupId == g.id
    ensures CreateBindingCheck(w, p, request, r.id) == None <==> MayBindPlatform(w, p, g, r)
  {
    FindGroupFinds(w.records.groups, g);
    FindRoleFinds(w.records.roles, r);
    PlatformDecisionMeans(w, p);
    EffectiveMeans(w, r, true);
  }

  /** The scope a request names: its kind and identifiers, which must be there and not be zero. */
  lemma CommandScopeMeans(request: BindingRequest)
    ensures CommandScope(request).Ok? <==>
            && request.scopeKind in {ProjectKind, EnvironmentKind, ApplicationKind}
            && request.organizationId != 0 && request.projectId != 0
            && (request.scopeKind != ProjectKind ==> request.environmentId !in {None, Some(0)})
            && (request.scopeKind == ApplicationKind ==> request.applicationId !in {None, Some(0)})
    ensures CommandScope(request).Ok? ==>
              var s := CommandScope(request).value;
              && s.Valid() && s.kind == request.scopeKind
              && s.organizationId == request.organizationId && s.projectId == request.projectId
              && (s.kind != ProjectKind ==> Some(s.environmentId) == request.environmentId)
              && (s.kind == ApplicationKind ==> Some(s.applicationId) == request.applicationId)
  {
  }

  /** A request at a resource is accepted exactly when it names a scope and the caller may bind there. */
  lemma BindingAtResourceMeans(w: World, p: Principal, request: BindingRequest, g: AccessGroup, r: AccessRole)
    requires WellKeyed(w) && g in w.records.groups && r in w.records.roles
    requires request.scopeKind != PlatformKind && request.groupId == g.id
    ensures CreateBindingCheck(w, p, request, r.id) == None
            <==> CommandScope(request).Ok? && MayBindAt(w, p, CommandScope(request).value, g, r)
  {
    FindGroupFinds(w.records.groups, g);
    FindRoleFinds(w.records.roles, r);
    if CommandScope(request).Ok? {
      CommandScopeMeans(request);
      ScopedCheckMeans(w, p, request, g, r);
    }
  }

  lemma ScopedCheckMeans(w: World, p: Principal, request: BindingRequest, g: AccessGroup, r: AccessRole)
    requires FindGroup(w.records.groups, request.groupId) == Some(g) && FindRole(w.records.roles, r.id) == Some(r)
    requires CommandScope(request).Ok? && CommandScope(request).value.Valid()
    requires CommandScope(request).value.projectId == request.projectId
    requires CommandScope(request).value.organizationId == request.organizationId
    ensures ScopedBindingCheck(w, p, request, r.id) == None
            <==> MayBindAt(w, p, CommandScope(request).value, g, r)
  {
    PlatformDecisionMeans(w, p);
    EffectiveMeans(w, r, false);
  }

  /** An accepted request names an existing group and role. */
  lemma AcceptedBindingHasRows(w: World, p: Principal, request: BindingRequest, roleId: Uuid)
    requires CreateBindingCheck(w, p, request, roleId) == None
    ensures exists g <- w.records.groups :: g.id == request.groupId
    ensures exists r <- w.records.roles :: r.id == roleId
  {
    FirstFinds(GroupIs(request.groupId), w.records.groups);
    FirstFinds(RoleIs(roleId), w.records.roles);
  }

  /**
   Who is offered choices at a scope, and the whole vocabulary at the platform but only delegable permissions below.
   The offered groups and roles are those that can be bound there (AccessBindings.OfferedPairsAreAccepted).
   */
  lemma OptionsMean(w: World, p: Principal, scope: Option<Scope>)
    requires scope.Some? ==> scope.value.Valid()
    ensures ScopeOptionsOn(w, p, scope).Ok? <==>
            && scope != None
            && (RunsPlatform(w, p)
                || (scope.value.kind != PlatformKind && Allowed(w.rules, p, "group.manage", scope.value)))
    ensures ScopeOptionsOn(w, p, scope).Ok? ==>
              forall x :: x in ScopeOptionsOn(w, p, scope).value.permissions <==>
                          (x in w.records.permissions && (scope.value.kind == PlatformKind || x.projectRoleDelegable))
    ensures ScopeOptionsOn(w, p, scope).Err? ==>
              ScopeOptionsOn(w, p, scope).error == if p.userId == 0 then Unevaluable else NotFound
  {
    PlatformDecisionMeans(w, p);
    if scope.Some? {
      FilterMembers(OfferedPermission(scope.value), w.records.permissions);
    }
  }
}
