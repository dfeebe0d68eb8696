/** What each access mutation does to which row, when it is refused, and whose grants go with the row. */
module AccessLaws {
  import opened Basics
  import opened Scopes
  import opened PolicyTables
  import opened PolicyDecision
  import opened AuditVisibility
  import opened AuditCapabilities
  import opened PolicyLaws
  import opened AccessRepository
  import opened OidcGroups
  import opened AccessContinuity

  // ---------------------------------------------------------------------------------------------
  // The guard
  // ---------------------------------------------------------------------------------------------

  /** The rows that make an enabled user a platform manager, whatever the source of the membership. */
  ghost predicate ManagesBy(t: Tables, user: Uuid, m: Uuid, b: Uuid) {
    && IsMember(t, m, user)
    && b in t.platformBindings && t.platformBindings[b].active
    && t.platformBindings[b].groupId == t.memberships[m].groupId
    && t.platformBindings[b].roleId in t.roles && t.roles[t.platformBindings[b].roleId].active
    && (t.platformBindings[b].roleId, "platform.manage") in t.rolePermissions
  }

  lemma ManagersAreInTheRows(t: Tables, user: Uuid)
    ensures user in Managers(t, false) <==> exists m, b :: ManagesBy(t, user, m, b)
    ensures user in Managers(t, true) <==> exists m, b :: ManagesBy(t, user, m, b) && t.memberships[m].source == Manual
  {
    if user in Managers(t, false) {
      var m, b :| m in t.memberships && b in t.platformBindings && ManagerPath(t, m, b, false)
        && t.memberships[m].userId == user;
      assert ManagesBy(t, user, m, b);
    }
    if user in Managers(t, true) {
      var m, b :| m in t.memberships && b in t.platformBindings && ManagerPath(t, m, b, true)
        && t.memberships[m].userId == user;
      assert ManagesBy(t, user, m, b);
    }
    if m, b :| ManagesBy(t, user, m, b) && t.memberships[m].source == Manual {
      assert ManagerPath(t, m, b, true);
    }
    if m, b :| ManagesBy(t, user, m, b) {
      assert ManagerPath(t, m, b, false);
    }
  }

  /** A mutation whose work succeeds commits exactly when some rows still make someone a manager. */
  lemma GuardCommitsIff(t: Tables, organizations: set<Uuid>, op: Protected)
    ensures var work := Work(t, organizations, op);
            var r := GuardedOn(t, organizations, op);
            && (work.Err? ==> r == Err(work.error))
            && (work.Ok? ==>
                  if exists user, m, b :: ManagesBy(Apply(t, work.value), user, m, b)
                  then r == Ok(Apply(t, work.value)) else r == Err(LastPlatformManager))
  {
    var work := Work(t, organizations, op);
    if work.Ok? {
      var after := Apply(t, work.value);
      if user, m, b :| ManagesBy(after, user, m, b) {
        ManagersAreInTheRows(after, user);
      }
      if user :| user in Managers(after, false) {
        ManagersAreInTheRows(after, user);
      }
    }
  }

  // ---------------------------------------------------------------------------------------------
  // Owners
  // ---------------------------------------------------------------------------------------------

  lemma OwnersResolve(t: Tables, organizations: set<Uuid>, owner: Option<Uuid>)
    ensures OwnerResolves(t, organizations, PlatformOwned, owner)
    ensures OwnerResolves(t, organizations, OrganizationOwned, owner) <==>
            exists id <- organizations :: owner == Some(id)
    ensures OwnerResolves(t, organizations, ProjectOwned, owner) <==>
            exists id <- t.projects :: owner == Some(id) && t.projects[id].active && t.projects[id].organizationId != 0
  {
  }

  // ---------------------------------------------------------------------------------------------
  // Users
  // ---------------------------------------------------------------------------------------------

  /** Only the users table differs. */
  ghost predicate OnlyUsers(t: Tables, after: Tables) {
    && after.groups == t.groups && after.roles == t.roles && after.rolePermissions == t.rolePermissions
    && after.memberships == t.memberships && after.bindings == t.bindings
    && after.platformBindings == t.platformBindings && after.denies == t.denies && after.projects == t.projects
  }

  lemma UserWorksIff(t: Tables, organizations: set<Uuid>, user: Uuid)
    ensures var work := Work(t, organizations, DisableUser(user));
            if user in t.users && !t.users[user].disabled then work.Ok? else work == Err(AccessError.NotFound)
  {
  }

  /** A disabled user is disabled, every other user and every other table is as it was. */
  lemma DisabledUserIsOff(t: Tables, organizations: set<Uuid>, user: Uuid)
    requires GuardedOn(t, organizations, DisableUser(user)).Ok?
    ensures var after := GuardedOn(t, organizations, DisableUser(user)).value;
            && OnlyUsers(t, after) && after.users.Keys == t.users.Keys
            && user in t.users && !t.users[user].disabled && after.users[user].disabled
            && after.users[user].username == t.users[user].username
            && forall u <- t.users | u != user :: after.users[u] == t.users[u]
  {
  }

  /** No membership of a disabled user is live, so no grant and no deny through one is; those of others stay. */
  lemma DisabledUserHasNothing(t: Tables, organizations: set<Uuid>, user: Uuid, m: Uuid, row: Uuid, permission: string)
    requires GuardedOn(t, organizations, DisableUser(user)).Ok? && m in t.memberships
    ensures var after := GuardedOn(t, organizations, DisableUser(user)).value;
            if t.memberships[m].userId == user
            then && !IsMember(after, m, user) && !PlatformGrant(after, m, row, permission)
                 && !ScopedGrant(after, m, row, permission) && !DenyGrant(after, m, row)
            else && (PlatformGrant(after, m, row, permission) <==> PlatformGrant(t, m, row, permission))
                 && (ScopedGrant(after, m, row, permission) <==> ScopedGrant(t, m, row, permission))
                 && (DenyGrant(after, m, row) <==> DenyGrant(t, m, row))
  {
    ExactlyTheseGrantsGo(t, NO_ROWS.(users := {user}), m, row, permission);
  }

  /** The engine allows a disabled user nothing, even to a caller whose own flag is not set yet. */
  lemma DisabledUserIsAllowedNothing(t: Tables, organizations: set<Uuid>, user: Uuid, act: string, s: Scope)
    requires WellFormedBindings(t) && WellFormedDenies(t) && GuardedOn(t, organizations, DisableUser(user)).Ok?
    ensures var after := GuardedOn(t, organizations, DisableUser(user)).value;
            !Allowed(EffectivePolicy(after), Principal(user, false), act, s)
  {
    var after := GuardedOn(t, organizations, DisableUser(user)).value;
    DisabledUserIsOff(t, organizations, user);
    DecisionIsInTheRows(after, Principal(user, false), act, s);
  }

  // ---------------------------------------------------------------------------------------------
  // Memberships
  // ---------------------------------------------------------------------------------------------

  ghost predicate OnlyMemberships(t: Tables, after: Tables) {
    && after.users == t.users && after.groups == t.groups && after.roles == t.roles
    && after.rolePermissions == t.rolePermissions && after.bindings == t.bindings
    && after.platformBindings == t.platformBindings && after.denies == t.denies && after.projects == t.projects
  }

  lemma MembershipWorksIff(t: Tables, organizations: set<Uuid>, m: Uuid)
    requires forall n <- t.memberships :: t.memberships[n].groupId in t.groups && t.memberships[n].groupId != 0
    ensures var work := Work(t, organizations, RevokeMembership(m));
            if m !in t.memberships then work == Err(AccessError.NotFound)
            else
              var group := t.groups[t.memberships[m].groupId];
              if !OwnerResolves(t, organizations, group.ownerKind, group.ownerId) then work == Err(AccessError.NotFound)
              else if t.memberships[m].source == Oidc || !t.memberships[m].active then work == Err(Conflict)
              else work.Ok?
  {
  }

  lemma RevokedMembershipIsOff(t: Tables, organizations: set<Uuid>, m: Uuid)
    requires GuardedOn(t, organizations, RevokeMembership(m)).Ok?
    ensures var after := GuardedOn(t, organizations, RevokeMembership(m)).value;
            && OnlyMemberships(t, after) && after.memberships.Keys == t.memberships.Keys
            && m in t.memberships && t.memberships[m].active && t.memberships[m].source == Manual
            && !after.memberships[m].active && after.memberships[m].(active := true) == t.memberships[m]
            && forall n <- t.memberships | n != m :: after.memberships[n] == t.memberships[n]
  {
  }

  lemma RevokedMembershipGivesNothing(t: Tables, organizations: set<Uuid>, m: Uuid, n: Uuid, row: Uuid,
                                      permission: string)
    requires GuardedOn(t, organizations, RevokeMembership(m)).Ok?
    ensures var after := GuardedOn(t, organizations, RevokeMembership(m)).value;
            && (PlatformGrant(after, n, row, permission) <==> n != m && PlatformGrant(t, n, row, permission))
            && (ScopedGrant(after, n, row, permission) <==> n != m && ScopedGrant(t, n, row, permission))
            && (DenyGrant(after, n, row) <==> n != m && DenyGrant(t, n, row))
  {
    ExactlyTheseGrantsGo(t, NO_ROWS.(memberships := {m}), n, row, permission);
  }

  // ---------------------------------------------------------------------------------------------
  // Roles
  // ---------------------------------------------------------------------------------------------

  ghost predicate OnlyRoles(t: Tables, after: Tables) {
    && after.users == t.users && after.groups == t.groups && after.rolePermissions == t.rolePermissions
    && after.memberships == t.memberships && after.bindings == t.bindings
    && after.platformBindings == t.platformBindings && after.denies == t.denies && after.projects == t.projects
  }

  lemma RoleWorksIff(t: Tables, organizations: set<Uuid>, role: Uuid)
    ensures var work := Work(t, organizations, DisableRole(role));
            if role !in t.roles || !OwnerResolves(t, organizations, t.roles[role].ownerKind, t.roles[role].ownerId)
            then work == Err(AccessError.NotFound)
            else if t.roles[role].systemKey != None || !t.roles[role].active then work == Err(Conflict)
            else work.Ok?
  {
  }

  lemma DisabledRoleIsOff(t: Tables, organizations: set<Uuid>, role: Uuid)
    requires GuardedOn(t, organizations, DisableRole(role)).Ok?
    ensures var after := GuardedOn(t, organizations, DisableRole(role)).value;
            && OnlyRoles(t, after) && after.roles.Keys == t.roles.Keys
            && role in t.roles && t.roles[role].active && t.roles[role].systemKey == None
            && !after.roles[role].active && after.roles[role].(active := true) == t.roles[role]
            && forall x <- t.roles | x != role :: after.roles[x] == t.roles[x]
  {
  }

  /** The grants of bindings to the role go, all others and every deny stay. */
  lemma DisabledRoleGrantsNothing(t: Tables, organizations: set<Uuid>, role: Uuid, m: Uuid, row: Uuid,
                                  permission: string)
    requires GuardedOn(t, organizations, DisableRole(role)).Ok?
    ensures var after := GuardedOn(t, organizations, DisableRole(role)).value;
            && (PlatformGrant(after, m, row, permission) <==>
                (PlatformGrant(t, m, row, permission) && t.platformBindings[row].roleId != role))
            && (ScopedGrant(after, m, row, permission) <==>
                (ScopedGrant(t, m, row, permission) && t.bindings[row].roleId != role))
            && (DenyGrant(after, m, row) <==> DenyGrant(t, m, row))
  {
    ExactlyTheseGrantsGo(t, NO_ROWS.(roles := {role}), m, row, permission);
  }

  // ---------------------------------------------------------------------------------------------
  // Bindings
  // ---------------------------------------------------------------------------------------------

  ghost predicate OnlyBindings(t: Tables, after: Tables) {
    && after.users == t.users && after.groups == t.groups && after.roles == t.roles
    && after.rolePermissions == t.rolePermissions && after.memberships == t.memberships
    && after.denies == t.denies && after.projects == t.projects
  }

  lemma BindingWorksIff(t: Tables, organizations: set<Uuid>, b: Uuid)
    ensures var work := Work(t, organizations, RevokeBinding(b));
            if b in t.bindings && t.bindings[b].organizationId != 0 then
              if t.bindings[b].active then work.Ok? else work == Err(Conflict)
            else if b in t.platformBindings then
              if t.platformBindings[b].active then work.Ok? else work == Err(Conflict)
            else work == Err(AccessError.NotFound)
  {
  }

  /** A revoked binding is off in the table it is found in first, the scoped one; nothing else differs. */
  lemma RevokedBindingIsOff(t: Tables, organizations: set<Uuid>, b: Uuid)
    requires forall x <- t.bindings :: t.bindings[x].organizationId != 0
    requires GuardedOn(t, organizations, RevokeBinding(b)).Ok?
    ensures var after := GuardedOn(t, organizations, RevokeBinding(b)).value;
            && OnlyBindings(t, after) && after.bindings.Keys == t.bindings.Keys
            && after.platformBindings.Keys == t.platformBindings.Keys
            && (forall x <- t.bindings | x != b :: after.bindings[x] == t.bindings[x])
            && (forall x <- t.platformBindings | x != b || b in t.bindings ::
                  after.platformBindings[x] == t.platformBindings[x])
            && (b in t.bindings ==>
                  t.bindings[b].active && !after.bindings[b].active
                  && after.bindings[b].(active := true) == t.bindings[b])
            && (b !in t.bindings ==>
                  b in t.platformBindings && t.platformBindings[b].active && !after.platformBindings[b].active
                  && after.platformBindings[b].(active := true) == t.platformBindings[b])
  {
  }

  lemma RevokedBindingGrantsNothing(t: Tables, organizations: set<Uuid>, b: Uuid, m: Uuid, row: Uuid,
                                    permission: string)
    requires forall x <- t.bindings :: t.bindings[x].organizationId != 0
    requires GuardedOn(t, organizations, RevokeBinding(b)).Ok?
    ensures var after := GuardedOn(t, organizations, RevokeBinding(b)).value;
            && (ScopedGrant(after, m, row, permission) <==> row != b && ScopedGrant(t, m, row, permission))
            && (PlatformGrant(after, m, row, permission) <==>
                ((row != b || b in t.bindings) && PlatformGrant(t, m, row, permission)))
            && (DenyGrant(after, m, row) <==> DenyGrant(t, m, row))
  {
    ExactlyTheseGrantsGo(t, Work(t, organizations, RevokeBinding(b)).value, m, row, permission);
  }

  // ---------------------------------------------------------------------------------------------
  // Groups
  // ---------------------------------------------------------------------------------------------

  lemma GroupWorksIff(t: Tables, organizations: set<Uuid>, group: Uuid)
    ensures var work := Work(t, organizations, DisableGroup(group));
            if group in t.groups && !t.groups[group].disabled
               && OwnerResolves(t, organizations, t.groups[group].ownerKind, t.groups[group].ownerId)
            then work.Ok? else work == Err(AccessError.NotFound)
  {
  }

  /** A disabled group is disabled; its active bindings and denies go off with it; every other row is as it was. */
  lemma DisabledGroupIsOff(t: Tables, organizations: set<Uuid>, group: Uuid)
    requires GuardedOn(t, organizations, DisableGroup(group)).Ok?
    ensures var after := GuardedOn(t, organizations, DisableGroup(group)).value;
            && after.users == t.users && after.roles == t.roles && after.rolePermissions == t.rolePermissions
            && after.memberships == t.memberships && after.projects == t.projects
            && after.groups.Keys == t.groups.Keys && group in t.groups
            && after.groups[group].disabled && after.groups[group].(disabled := false) == t.groups[group]
            && (forall g <- t.groups | g != group :: after.groups[g] == t.groups[g])
            && after.bindings.Keys == t.bindings.Keys && after.denies.Keys == t.denies.Keys
            && after.platformBindings.Keys == t.platformBindings.Keys
            && (forall b <- t.bindings ::
                  RowAfterGroup(t.bindings[b].groupId == group, t.bindings[b], after.bindings[b],
                                t.bindings[b].(active := false)))
            && (forall b <- t.platformBindings ::
                  RowAfterGroup(t.platformBindings[b].groupId == group, t.platformBindings[b],
                                after.platformBindings[b], t.platformBindings[b].(active := false)))
            && (forall d <- t.denies :: RowAfterGroup(t.denies[d].groupId == group, t.denies[d], after.denies[d],
                                                      t.denies[d].(active := false)))
  {
    GroupRowsOff(t, group);
  }

  ghost predicate RowAfterGroup<T>(mine: bool, before: T, after: T, off: T) {
    after == if mine then off else before
  }

  // ---------------------------------------------------------------------------------------------
  // Insertions
  // ---------------------------------------------------------------------------------------------

  /** When a membership can be added, and the one row that is then active. */
  lemma AddedMembershipIsOn(t: Tables, organizations: set<Uuid>, id: Uuid, group: Uuid, user: Uuid)
    requires OneManualMembership(t) && 0 !in t.memberships
    ensures var r := AddMembershipOn(t, organizations, id, group, user);
            if group !in t.groups
               || !OwnerResolves(t, organizations, t.groups[group].ownerKind, t.groups[group].ownerId)
            then r == Err(AccessError.NotFound)
            else if m :| IsManualMembership(t, m, group, user) then
              if t.memberships[m].active then r == Err(Conflict)
              else r.Ok? && OnlyMemberships(t, r.value) && r.value.memberships.Keys == t.memberships.Keys
                   && r.value.memberships[m] == t.memberships[m].(active := true)
                   && forall n <- t.memberships | n != m :: r.value.memberships[n] == t.memberships[n]
            else if user !in t.users || id in t.memberships then r == Err(Conflict)
            else && r.Ok? && OnlyMemberships(t, r.value) && r.value.memberships.Keys == t.memberships.Keys + {id}
                 && r.value.memberships[id] == Membership(group, user, Manual, None, true)
                 && forall n <- t.memberships :: r.value.memberships[n] == t.memberships[n]
  {
    if m :| IsManualMembership(t, m, group, user) {
      forall n | IsManualMembership(t, n, group, user)
        ensures n == m
      {
        assert IsManualMembership(t, n, t.memberships[m].groupId, t.memberships[m].userId);
      }
    }
  }

  /** What makes a membership the manual one of a user in a group. */
  lemma ManualMembershipMeans(t: Tables, m: Uuid, group: Uuid, user: Uuid)
    requires m in t.memberships
    ensures IsManualMembership(t, m, group, user) <==>
            (t.memberships[m].groupId, t.memberships[m].userId, t.memberships[m].source) == (group, user, Manual)
  {
  }

  /** The row a binding request stores for one of its roles, and the row that stands in its way. */
  lemma BindingRowsMean(t: Tables, input: BindingInput, role: Uuid, id: Uuid)
    ensures var after := Insert(t, input, role, id);
            if input.scopeKind == PlatformKind
            then && after.platformBindings == t.platformBindings[id := PlatformBinding(input.groupId, role, true)]
                 && after == t.(platformBindings := after.platformBindings)
                 && (BindingPresent(t, input, role) <==>
                     exists b <- t.platformBindings ::
                       (t.platformBindings[b].groupId, t.platformBindings[b].roleId) == (input.groupId, role))
            else && after == t.(bindings := t.bindings[id := Binding(
                                  input.groupId, role, input.organizationId, input.scopeKind, input.projectId,
                                  input.environmentId, input.applicationId, true)])
                 && (BindingPresent(t, input, role) <==>
                     exists b <- t.bindings ::
                       var x := t.bindings[b];
                       && x.active && (x.groupId, x.roleId, x.scopeKind) == (input.groupId, role, input.scopeKind)
                       && (x.projectId, x.environmentId, x.applicationId)
                          == (input.projectId, input.environmentId, input.applicationId))
  {
  }

  lemma RowsFit(t: Tables, input: BindingInput, role: Uuid)
    ensures RowFits(t, input, role) <==>
            && input.groupId in t.groups && role in t.roles
            && (input.scopeKind == PlatformKind
                || (input.scopeKind == ProjectKind && input.environmentId == None && input.applicationId == None)
                || (input.scopeKind == EnvironmentKind && input.environmentId != None && input.applicationId == None)
                || (input.scopeKind == ApplicationKind && input.environmentId != None && input.applicationId != None))
  {
  }

  /** A created group, role or deny is there as given, and nothing else differs. */
  lemma CreatedGroupIsThere(t: Tables, organizations: set<Uuid>, id: Uuid, group: Group)
    ensures var r := UnprotectedOn(t, organizations, CreateGroup(id, group));
            if !OwnerResolves(t, organizations, group.ownerKind, group.ownerId) then r == Err(AccessError.NotFound)
            else if id in t.groups then r == Err(Conflict)
            else r.Ok? && r.value == t.(groups := r.value.groups) && r.value.groups.Keys == t.groups.Keys + {id}
                 && r.value.groups[id] == group && forall g <- t.groups :: r.value.groups[g] == t.groups[g]
  {
  }

  lemma CreatedRoleIsThere(t: Tables, organizations: set<Uuid>, id: Uuid, role: Role, permissions: set<string>)
    ensures var r := UnprotectedOn(t, organizations, CreateRole(id, role, permissions));
            if !OwnerResolves(t, organizations, role.ownerKind, role.ownerId) then r == Err(AccessError.NotFound)
            else if id in t.roles then r == Err(Conflict)
            else r.Ok? && r.value == t.(roles := r.value.roles, rolePermissions := r.value.rolePermissions)
                 && r.value.roles.Keys == t.roles.Keys + {id} && r.value.roles[id] == role
                 && (forall x <- t.roles :: r.value.roles[x] == t.roles[x])
                 && forall x, p :: (x, p) in r.value.rolePermissions
                                   <==> ((x, p) in t.rolePermissions || (x == id && p in permissions))
  {
  }

  lemma CreatedDenyIsThere(t: Tables, organizations: set<Uuid>, id: Uuid, deny: Deny)
    ensures var r := UnprotectedOn(t, organizations, CreateDeny(id, deny));
            if deny.groupId in t.groups && id !in t.denies
               && ConsistentColumns(deny.scopeKind, deny.environmentId, deny.applicationId)
            then r.Ok? && r.value == t.(denies := r.value.denies) && r.value.denies.Keys == t.denies.Keys + {id}
                 && r.value.denies[id] == deny && forall d <- t.denies :: r.value.denies[d] == t.denies[d]
            else r == Err(Conflict)
  {
  }

  /** A lifted deny is off and nothing else differs. */
  lemma LiftedDenyIsOff(t: Tables, organizations: set<Uuid>, d: Uuid)
    ensures var r := UnprotectedOn(t, organizations, RevokeDeny(d));
            if d !in t.denies || t.denies[d].organizationId == 0 then r == Err(AccessError.NotFound)
            else if !t.denies[d].active then r == Err(Conflict)
            else r.Ok? && r.value == t.(denies := r.value.denies) && r.value.denies.Keys == t.denies.Keys
                 && !r.value.denies[d].active && r.value.denies[d].(active := true) == t.denies[d]
                 && forall x <- t.denies | x != d :: r.value.denies[x] == t.denies[x]
  {
  }

  // ---------------------------------------------------------------------------------------------
  // Logins
  // ---------------------------------------------------------------------------------------------

  /** The groups a login is to be in: those enabled, for OIDC viewers, that an active mapping of the issuer names. */
  lemma TargetsAreMapped(t: Tables, mappings: Mappings, login: Login, g: Uuid)
    ensures g in Targets(t, mappings, login) <==>
            && g in t.groups && t.groups[g].oidcViewerOnly && !t.groups[g].disabled
            && exists p :: p in login.providerGroups && (login.issuer, p) in mappings
                           && mappings[(login.issuer, p)] == Mapping(g, true)
  {
    if g in Targets(t, mappings, login) {
      var p :| p in login.providerGroups && (login.issuer, p) in mappings && InForce(t, mappings[(login.issuer, p)])
        && mappings[(login.issuer, p)].groupId == g;
    }
  }

  /** The rows of a login's issuer and user after it: on exactly for the targets; every other row is as it was. */
  lemma LoginRows(t: Tables, mappings: Mappings, login: Login, m: Uuid)
    requires SyncOn(t, mappings, login).Ok?
    ensures var after := SyncOn(t, mappings, login).value;
            && OnlyMemberships(t, after)
            && (m in t.memberships ==> m in after.memberships)
            && (m in t.memberships ==>
                  var row := t.memberships[m];
                  if row.source == Oidc && row.userId == login.user && row.issuer == Some(login.issuer)
                  then after.memberships[m] == row.(active := row.groupId in Targets(t, mappings, login))
                  else after.memberships[m] == row)
            && (m in after.memberships && m !in t.memberships ==>
                  && after.memberships[m] == Membership(after.memberships[m].groupId, login.user, Oidc,
                                                        Some(login.issuer), true)
                  && after.memberships[m].groupId in Targets(t, mappings, login))
  {
    if m in t.memberships {
      StoredRowAfterLogin(t, mappings, login, m);
    } else if m in SyncOn(t, mappings, login).value.memberships {
      var g := NewRowAfterLogin(t, mappings, login, m);
    }
  }

  /** The row the issuer gave the user in a group, by its columns. */
  ghost predicate HasOidcRow(t: Tables, login: Login, g: Uuid) {
    exists m <- t.memberships ::
      && t.memberships[m].groupId == g && t.memberships[m].userId == login.user
      && t.memberships[m].source == Oidc && t.memberships[m].issuer == Some(login.issuer)
  }

  /** The identifier drawn for a new row is free, and drawn for no other group that needs one. */
  ghost predicate DrawnFreely(t: Tables, login: Login, targets: set<Uuid>, g: Uuid) {
    && g in login.ids && login.ids[g] !in t.memberships
    && forall h <- targets | h != g && h in login.ids && !HasOidcRow(t, login, h) :: login.ids[h] != login.ids[g]
  }

  /** A login stores its rows exactly when each target has one or can be given one, which takes an existing user. */
  lemma LoginStoresIff(t: Tables, mappings: Mappings, login: Login)
    ensures SyncOn(t, mappings, login).Ok? <==>
            forall g <- Targets(t, mappings, login) ::
              HasOidcRow(t, login, g)
              || (login.user in t.users && DrawnFreely(t, login, Targets(t, mappings, login), g))
    ensures SyncOn(t, mappings, login).Err? ==> SyncOn(t, mappings, login) == Err(Rejected)
  {
    var targets := Targets(t, mappings, login);
    forall g
      ensures HasOidcRow(t, login, g) <==> HasRow(t, login, g)
    {
    }
    if CanStore(t, login, targets) {
      forall g | g in targets && !HasOidcRow(t, login, g)
        ensures login.user in t.users && DrawnFreely(t, login, targets, g)
      {
        assert CanInsert(t, login, g);
      }
    }
  }

  /** After a login that stores its rows, the user has an active row of the issuer in every target. */
  lemma LoginJoinsEveryTarget(t: Tables, mappings: Mappings, login: Login, g: Uuid)
    requires SyncOn(t, mappings, login).Ok? && g in Targets(t, mappings, login)
    ensures var after := SyncOn(t, mappings, login).value;
            exists m :: m in after.memberships
              && after.memberships[m] == Membership(g, login.user, Oidc, Some(login.issuer), true)
  {
    var after := SyncOn(t, mappings, login).value;
    if HasRow(t, login, g) {
      var m :| m in t.memberships && IsMine(t, login, m) && t.memberships[m].groupId == g;
      StoredRowAfterLogin(t, mappings, login, m);
      assert after.memberships[m] == Membership(g, login.user, Oidc, Some(login.issuer), true);
    } else {
      var m := login.ids[g];
      assert m in Inserted(t, login, Targets(t, mappings, login));
      assert after.memberships[m] == NewRow(login, g);
    }
  }
}
