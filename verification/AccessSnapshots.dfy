/** The access-management read model: loading it, and narrowing it to the projects a caller manages. */
module AccessSnapshots {
  import opened Basics
  import opened Lists
  import opened Scopes
  import opened PolicyTables

  datatype AccessUser = AccessUser(id: Uuid, username: string, disabled: bool)

  datatype AccessGroup = AccessGroup(
    id: Uuid, ownerKind: OwnerKind, ownerId: Option<Uuid>, name: string, systemKey: Option<string>, disabled: bool)

  datatype AccessRole = AccessRole(
    id: Uuid, ownerKind: OwnerKind, ownerId: Option<Uuid>, name: string, systemKey: Option<string>, active: bool,
    permissions: seq<string>)

  datatype AccessPermission = AccessPermission(key: string, platformOnly: bool, projectRoleDelegable: bool)

  datatype AccessMembership = AccessMembership(id: Uuid, groupId: Uuid, userId: Uuid, source: MembershipSource,
      active: bool)

  datatype AccessBinding = AccessBinding(
    id: Uuid, groupId: Uuid, roleId: Uuid, organizationId: Uuid, scopeKind: ScopeKind, projectId: Uuid,
    environmentId: Option<Uuid>, applicationId: Option<Uuid>, active: bool)

  datatype AccessDeny = AccessDeny(
    id: Uuid, groupId: Uuid, permission: string, organizationId: Uuid, scopeKind: ScopeKind, projectId: Uuid,
    environmentId: Option<Uuid>, applicationId: Option<Uuid>, active: bool)

  datatype Snapshot = Snapshot(
    users: seq<AccessUser>, groups: seq<AccessGroup>, roles: seq<AccessRole>, permissions: seq<AccessPermission>,
    memberships: seq<AccessMembership>, bindings: seq<AccessBinding>, denies: seq<AccessDeny>)

  datatype ProjectScope = ProjectScope(organizationId: Uuid, projectId: Uuid)

  /** A fixed policy state: the loaded rules, the active projects and the stored records. */
  datatype World = World(rules: set<Rule>, projects: seq<ProjectScope>, records: Snapshot)

  datatype AccessError = NotFound | Conflict | ProtectedResource | SelfDisable | InvalidAccessRequest | Unevaluable

  datatype Loaded = Loaded(
    platform: bool, records: Snapshot, managedProjects: set<Uuid>, managedGroups: set<Uuid>, managedRoles: set<Uuid>)

  // ---------------------------------------------------------------------------------------------
  // Order of a filtered list
  // ---------------------------------------------------------------------------------------------

  /** a is b with some elements left out: the order is b's. */
  ghost predicate Subsequence<T>(a: seq<T>, b: seq<T>) {
    || a == []
    || (b != [] && ((a[|a| - 1] == b[|b| - 1] && Subsequence(a[..|a| - 1], b[..|b| - 1]))
        || Subsequence(a, b[..|b| - 1])))
  }

  lemma SubsequenceGrows<T>(a: seq<T>, b: seq<T>, x: T)
    requires Subsequence(a, b)
    ensures Subsequence(a, b + [x]) && Subsequence(a + [x], b + [x])
  {
    assert (b + [x])[..|b|] == b;
    assert (a + [x])[..|a|] == a;
  }

  /** A wider test keeps a wider list, in the same order. */
  lemma {:induction false} FilterMonotone<T>(p: T -> bool, q: T -> bool, s: seq<T>)
    requires forall x <- s :: p(x) ==> q(x)
    ensures Subsequence(Filter(p, s), Filter(q, s))
  {
    if s != [] {
      FilterMonotone(p, q, s[..|s| - 1]);
      SubsequenceGrows(Filter(p, s[..|s| - 1]), Filter(q, s[..|s| - 1]), s[|s| - 1]);
      assert s[|s| - 1] in s;
    }
  }

  lemma {:induction false} FilterKeepsOrder<T>(p: T -> bool, s: seq<T>)
    ensures Subsequence(Filter(p, s), s)
  {
    if s != [] {
      FilterKeepsOrder(p, s[..|s| - 1]);
      SubsequenceGrows(Filter(p, s[..|s| - 1]), s[..|s| - 1], s[|s| - 1]);
      assert s == s[..|s| - 1] + [s[|s| - 1]];
    }
  }

  // ---------------------------------------------------------------------------------------------
  // Narrowing a snapshot to projects
  // ---------------------------------------------------------------------------------------------

  predicate OwnedByProject(kind: OwnerKind, owner: Option<Uuid>, projects: set<Uuid>) {
    kind.ProjectOwned? && owner.Some? && owner.value in projects
  }

  function KeptBinding(projects: set<Uuid>): AccessBinding -> bool {
    (b: AccessBinding) => !b.scopeKind.PlatformKind? && b.projectId in projects
  }

  function KeptDeny(projects: set<Uuid>): AccessDeny -> bool {
    (d: AccessDeny) => d.projectId in projects
  }

  function OwnedGroupIds(groups: seq<AccessGroup>, projects: set<Uuid>): set<Uuid> {
    set g | g in groups && OwnedByProject(g.ownerKind, g.ownerId, projects) :: g.id
  }

  function OwnedRoleIds(roles: seq<AccessRole>, projects: set<Uuid>): set<Uuid> {
    set r | r in roles && OwnedByProject(r.ownerKind, r.ownerId, projects) :: r.id
  }

  function GroupIds(value: Snapshot, projects: set<Uuid>): set<Uuid> {
    (set b | b in Filter(KeptBinding(projects), value.bindings) :: b.groupId)
    + (set d | d in Filter(KeptDeny(projects), value.denies) :: d.groupId)
    + OwnedGroupIds(value.groups, projects)
  }

  function RoleIds(value: Snapshot, projects: set<Uuid>): set<Uuid> {
    (set b | b in Filter(KeptBinding(projects), value.bindings) :: b.roleId)
    + OwnedRoleIds(value.roles, projects)
  }

  function KeptGroup(ids: set<Uuid>): AccessGroup -> bool {
    (g: AccessGroup) => g.id in ids
  }

  function KeptRole(ids: set<Uuid>): AccessRole -> bool {
    (r: AccessRole) => r.id in ids
  }

  function KeptMembership(groups: set<Uuid>): AccessMembership -> bool {
    (m: AccessMembership) => m.groupId in groups
  }

  function UserIds(value: Snapshot, groups: set<Uuid>): set<Uuid> {
    set m | m in Filter(KeptMembership(groups), value.memberships) :: m.userId
  }

  function KeptUser(ids: set<Uuid>): AccessUser -> bool {
    (u: AccessUser) => u.id in ids
  }

  function Delegable(): AccessPermission -> bool {
    (p: AccessPermission) => p.projectRoleDelegable
  }

  function Narrowed(value: Snapshot, projects: set<Uuid>): Snapshot {
    Snapshot(
      Filter(KeptUser(UserIds(value, GroupIds(value, projects))), value.users),
      Filter(KeptGroup(GroupIds(value, projects)), value.groups),
      Filter(KeptRole(RoleIds(value, projects)), value.roles),
      Filter(Delegable(), value.permissions),
      Filter(KeptMembership(GroupIds(value, projects)), value.memberships),
      Filter(KeptBinding(projects), value.bindings),
      Filter(KeptDeny(projects), value.denies))
  }

  /** Rows are told apart by their primary keys. */
  ghost predicate DistinctKeys(value: Snapshot) {
    && (forall i, j | 0 <= i < j < |value.groups| :: value.groups[i].id != value.groups[j].id)
    && (forall i, j | 0 <= i < j < |value.roles| :: value.roles[i].id != value.roles[j].id)
    && (forall i, j | 0 <= i < j < |value.users| :: value.users[i].id != value.users[j].id)
    && (forall i, j | 0 <= i < j < |value.memberships| :: value.memberships[i].id != value.memberships[j].id)
    && (forall i, j | 0 <= i < j < |value.permissions| :: value.permissions[i].key != value.permissions[j].key)
  }

  method KeepBindings(bindings: seq<AccessBinding>, projects: set<Uuid>)
    returns (kept: seq<AccessBinding>, groups: set<Uuid>, roles: set<Uuid>)
    ensures kept == Filter(KeptBinding(projects), bindings)
    ensures groups == set b | b in kept :: b.groupId
    ensures roles == set b | b in kept :: b.roleId
  {
    kept, groups, roles := [], {}, {};
    for i := 0 to |bindings|
      invariant kept == Filter(KeptBinding(projects), bindings[..i])
      invariant groups == set b | b in kept :: b.groupId
      invariant roles == set b | b in kept :: b.roleId
    {
      FilterNext(KeptBinding(projects), bindings, i);
      if bindings[i].scopeKind.PlatformKind? || bindings[i].projectId !in projects {
        continue;
      }
      kept, groups, roles := kept + [bindings[i]], groups + {bindings[i].groupId}, roles + {bindings[i].roleId};
    }
    assert bindings[..|bindings|] == bindings;
  }

  method KeepDenies(denies: seq<AccessDeny>, projects: set<Uuid>) returns (kept: seq<AccessDeny>, groups: set<Uuid>)
    ensures kept == Filter(KeptDeny(projects), denies)
    ensures groups == set d | d in kept :: d.groupId
  {
    kept, groups := [], {};
    for i := 0 to |denies|
      invariant kept == Filter(KeptDeny(projects), denies[..i])
      invariant groups == set d | d in kept :: d.groupId
    {
      FilterNext(KeptDeny(projects), denies, i);
      if denies[i].projectId !in projects {
        continue;
      }
      kept, groups := kept + [denies[i]], groups + {denies[i].groupId};
    }
    assert denies[..|denies|] == denies;
  }

  /** One more group adds its own identifier, if at all; with distinct identifiers no other group adds it. */
  lemma OwnedGroupIdsNext(groups: seq<AccessGroup>, projects: set<Uuid>, i: nat)
    requires i < |groups| && forall k, j | 0 <= k < j < |groups| :: groups[k].id != groups[j].id
    ensures OwnedGroupIds(groups[..i + 1], projects) == OwnedGroupIds(groups[..i], projects)
              + if OwnedByProject(groups[i].ownerKind, groups[i].ownerId, projects) then {groups[i].id} else {}
    ensures groups[i].id in OwnedGroupIds(groups, projects)
            <==> OwnedByProject(groups[i].ownerKind, groups[i].ownerId, projects)
    ensures groups[i].id !in OwnedGroupIds(groups[..i], projects)
  {
    assert groups[..i + 1] == groups[..i] + [groups[i]];
  }

  lemma OwnedRoleIdsNext(roles: seq<AccessRole>, projects: set<Uuid>, i: nat)
    requires i < |roles| && forall k, j | 0 <= k < j < |roles| :: roles[k].id != roles[j].id
    ensures OwnedRoleIds(roles[..i + 1], projects) == OwnedRoleIds(roles[..i], projects)
              + if OwnedByProject(roles[i].ownerKind, roles[i].ownerId, projects) then {roles[i].id} else {}
    ensures roles[i].id in OwnedRoleIds(roles, projects)
            <==> OwnedByProject(roles[i].ownerKind, roles[i].ownerId, projects)
    ensures roles[i].id !in OwnedRoleIds(roles[..i], projects)
  {
    assert roles[..i + 1] == roles[..i] + [roles[i]];
  }

  /** Adds the project-owned groups to the referenced ones and keeps the included rows, in one pass. */
  method KeepGroups(groups: seq<AccessGroup>, projects: set<Uuid>, referenced: set<Uuid>)
    returns (kept: seq<AccessGroup>, included: set<Uuid>)
    requires forall i, j | 0 <= i < j < |groups| :: groups[i].id != groups[j].id
    ensures included == referenced + OwnedGroupIds(groups, projects)
    ensures kept == Filter(KeptGroup(included), groups)
  {
    ghost var all := referenced + OwnedGroupIds(groups, projects);
    kept, included := [], referenced;
    for i := 0 to |groups|
      invariant included == referenced + OwnedGroupIds(groups[..i], projects)
      invariant kept == Filter(KeptGroup(all), groups[..i])
    {
      FilterNext(KeptGroup(all), groups, i);
      OwnedGroupIdsNext(groups, projects, i);
      if OwnedByProject(groups[i].ownerKind, groups[i].ownerId, projects) {
        included := included + {groups[i].id};
      }
      assert groups[i].id in included <==> groups[i].id in all;
      if groups[i].id in included {
        kept := kept + [groups[i]];
      }
    }
    assert groups[..|groups|] == groups;
  }

  method KeepRoles(roles: seq<AccessRole>, projects: set<Uuid>, referenced: set<Uuid>)
    returns (kept: seq<AccessRole>, included: set<Uuid>)
    requires forall i, j | 0 <= i < j < |roles| :: roles[i].id != roles[j].id
    ensures included == referenced + OwnedRoleIds(roles, projects)
    ensures kept == Filter(KeptRole(included), roles)
  {
    ghost var all := referenced + OwnedRoleIds(roles, projects);
    kept, included := [], referenced;
    for i := 0 to |roles|
      invariant included == referenced + OwnedRoleIds(roles[..i], projects)
      invariant kept == Filter(KeptRole(all), roles[..i])
    {
      FilterNext(KeptRole(all), roles, i);
      OwnedRoleIdsNext(roles, projects, i);
      if OwnedByProject(roles[i].ownerKind, roles[i].ownerId, projects) {
        included := included + {roles[i].id};
      }
      assert roles[i].id in included <==> roles[i].id in all;
      if roles[i].id in included {
        kept := kept + [roles[i]];
      }
    }
    assert roles[..|roles|] == roles;
  }

  method KeepMemberships(memberships: seq<AccessMembership>, groups: set<Uuid>)
    returns (kept: seq<AccessMembership>, users: set<Uuid>)
    ensures kept == Filter(KeptMembership(groups), memberships)
    ensures users == set m | m in kept :: m.userId
  {
    kept, users := [], {};
    for i := 0 to |memberships|
      invariant kept == Filter(KeptMembership(groups), memberships[..i])
      invariant users == set m | m in kept :: m.userId
    {
      FilterNext(KeptMembership(groups), memberships, i);
      if memberships[i].groupId in groups {
        kept, users := kept + [memberships[i]], users + {memberships[i].userId};
      }
    }
    assert memberships[..|memberships|] == memberships;
  }

  method FilterAccessSnapshot(value: Snapshot, projects: set<Uuid>) returns (r: Snapshot)
    requires DistinctKeys(value)
    ensures r == Narrowed(value, projects)
  {
    var bindings, bindingGroups, bindingRoles := KeepBindings(value.bindings, projects);
    var denies, denyGroups := KeepDenies(value.denies, projects);
    var groups, included := KeepGroups(value.groups, projects, bindingGroups + denyGroups);
    assert included == GroupIds(value, projects);
    var memberships, members := KeepMemberships(value.memberships, included);
    var users := Keep(KeptUser(members), value.users);
    var roles, _ := KeepRoles(value.roles, projects, bindingRoles);
    var permissions := Keep(Delegable(), value.permissions);
    r := Snapshot(users, groups, roles, permissions, memberships, bindings, denies);
  }

  // ---------------------------------------------------------------------------------------------
  // What narrowing preserves
  // ---------------------------------------------------------------------------------------------

  ghost predicate HasGroup(value: Snapshot, id: Uuid) {
    exists g :: g in value.groups && g.id == id
  }

  ghost predicate HasRole(value: Snapshot, id: Uuid) {
    exists r :: r in value.roles && r.id == id
  }

  ghost predicate HasUser(value: Snapshot, id: Uuid) {
    exists u :: u in value.users && u.id == id
  }

  /** Every reference resolves: the foreign keys. */
  ghost predicate Closed(value: Snapshot) {
    && (forall b <- value.bindings :: HasGroup(value, b.groupId) && HasRole(value, b.roleId))
    && (forall d <- value.denies :: HasGroup(value, d.groupId))
    && (forall m <- value.memberships :: HasGroup(value, m.groupId) && HasUser(value, m.userId))
  }

  lemma NarrowedMembers(value: Snapshot, projects: set<Uuid>)
    ensures var n := Narrowed(value, projects);
            && (forall g :: g in n.groups <==> g in value.groups && g.id in GroupIds(value, projects))
            && (forall r :: r in n.roles <==> r in value.roles && r.id in RoleIds(value, projects))
            && (forall b :: b in n.bindings <==>
                 (b in value.bindings && !b.scopeKind.PlatformKind? && b.projectId in projects))
            && (forall d :: d in n.denies <==> d in value.denies && d.projectId in projects)
            && (forall m :: m in n.memberships <==> m in value.memberships && m.groupId in GroupIds(value, projects))
            && (forall u :: u in n.users <==> u in value.users && u.id in UserIds(value, GroupIds(value, projects)))
            && (forall p :: p in n.permissions <==> p in value.permissions && p.projectRoleDelegable)
  {
    FilterMembers(KeptGroup(GroupIds(value, projects)), value.groups);
    FilterMembers(KeptRole(RoleIds(value, projects)), value.roles);
    FilterMembers(KeptBinding(projects), value.bindings);
    FilterMembers(KeptDeny(projects), value.denies);
    FilterMembers(KeptMembership(GroupIds(value, projects)), value.memberships);
    FilterMembers(KeptUser(UserIds(value, GroupIds(value, projects))), value.users);
    FilterMembers(Delegable(), value.permissions);
  }

  /** Narrowing a closed snapshot gives a closed snapshot. */
  lemma NarrowingKeepsClosure(value: Snapshot, projects: set<Uuid>)
    requires Closed(value)
    ensures Closed(Narrowed(value, projects))
  {
    NarrowedMembers(value, projects);
    var n := Narrowed(value, projects);
    forall b | b in n.bindings
      ensures HasGroup(n, b.groupId) && HasRole(n, b.roleId)
    {
      assert HasGroup(value, b.groupId) && HasRole(value, b.roleId);
      var g :| g in value.groups && g.id == b.groupId;
      var r :| r in value.roles && r.id == b.roleId;
      assert g in n.groups && r in n.roles;
    }
    forall d | d in n.denies
      ensures HasGroup(n, d.groupId)
    {
      assert HasGroup(value, d.groupId);
      var g :| g in value.groups && g.id == d.groupId;
      assert g in n.groups;
    }
    forall m | m in n.memberships
      ensures HasGroup(n, m.groupId) && HasUser(n, m.userId)
    {
      assert HasGroup(value, m.groupId) && HasUser(value, m.userId);
      var g :| g in value.groups && g.id == m.groupId;
      var u :| u in value.users && u.id == m.userId;
      assert g in n.groups && u in n.users;
    }
  }

  /** The group is owned by one of the projects, or a kept binding or deny refers to it. */
  ghost predicate Reached(value: Snapshot, n: Snapshot, projects: set<Uuid>, id: Uuid) {
    || (exists g :: g in value.groups && g.id == id && OwnedByProject(g.ownerKind, g.ownerId, projects))
    || (exists b :: b in n.bindings && b.groupId == id)
    || (exists d :: d in n.denies && d.groupId == id)
  }

  /** Exactly what is kept: nothing of another project, and nothing of these projects is dropped. */
  lemma NarrowingIsExact(value: Snapshot, projects: set<Uuid>)
    requires Closed(value)
    ensures var n := Narrowed(value, projects);
            && (forall u :: u in n.users <==> u in value.users && exists m :: m in n.memberships && m.userId == u.id)
            && (forall m :: m in n.memberships <==> m in value.memberships && HasGroup(n, m.groupId))
            && (forall g :: g in n.groups <==> g in value.groups && Reached(value, n, projects, g.id))
            && (forall b <- n.bindings :: !b.scopeKind.PlatformKind? && b.projectId in projects)
            && (forall d <- n.denies :: d.projectId in projects)
  {
    NarrowedMembers(value, projects);
    forall m | m in value.memberships
      ensures m.groupId in GroupIds(value, projects) <==> HasGroup(Narrowed(value, projects), m.groupId)
    {
      assert HasGroup(value, m.groupId);
      KeptGroupsAreThere(value, projects, m.groupId);
    }
    forall id
      ensures id in GroupIds(value, projects) <==> Reached(value, Narrowed(value, projects), projects, id)
    {
      KeptGroupsAreReached(value, projects, id);
    }
  }

  lemma KeptGroupsAreThere(value: Snapshot, projects: set<Uuid>, id: Uuid)
    requires HasGroup(value, id)
    ensures id in GroupIds(value, projects) <==> HasGroup(Narrowed(value, projects), id)
  {
    FilterMembers(KeptGroup(GroupIds(value, projects)), value.groups);
    if id in GroupIds(value, projects) {
      var g :| g in value.groups && g.id == id;
      assert g in Narrowed(value, projects).groups;
    }
  }

  lemma KeptGroupsAreReached(value: Snapshot, projects: set<Uuid>, id: Uuid)
    ensures id in GroupIds(value, projects) <==> Reached(value, Narrowed(value, projects), projects, id)
  {
  }

  /** The order of every list is kept. */
  lemma NarrowingKeepsOrder(value: Snapshot, projects: set<Uuid>)
    ensures Within(Narrowed(value, projects), value)
  {
    FilterKeepsOrder(KeptGroup(GroupIds(value, projects)), value.groups);
    FilterKeepsOrder(KeptRole(RoleIds(value, projects)), value.roles);
    FilterKeepsOrder(KeptBinding(projects), value.bindings);
    FilterKeepsOrder(KeptDeny(projects), value.denies);
    FilterKeepsOrder(KeptMembership(GroupIds(value, projects)), value.memberships);
    FilterKeepsOrder(KeptUser(UserIds(value, GroupIds(value, projects))), value.users);
    FilterKeepsOrder(Delegable(), value.permissions);
  }

  ghost predicate Within(a: Snapshot, b: Snapshot) {
    && Subsequence(a.users, b.users) && Subsequence(a.groups, b.groups) && Subsequence(a.roles, b.roles)
    && Subsequence(a.permissions, b.permissions) && Subsequence(a.memberships, b.memberships)
    && Subsequence(a.bindings, b.bindings) && Subsequence(a.denies, b.denies)
  }

  lemma IdsGrow(value: Snapshot, a: set<Uuid>, b: set<Uuid>)
    requires a <= b
    ensures GroupIds(value, a) <= GroupIds(value, b) && RoleIds(value, a) <= RoleIds(value, b)
    ensures UserIds(value, GroupIds(value, a)) <= UserIds(value, GroupIds(value, b))
  {
    FilterMembers(KeptBinding(a), value.bindings);
    FilterMembers(KeptBinding(b), value.bindings);
    FilterMembers(KeptDeny(a), value.denies);
    FilterMembers(KeptDeny(b), value.denies);
    FilterMembers(KeptMembership(GroupIds(value, a)), value.memberships);
    FilterMembers(KeptMembership(GroupIds(value, b)), value.memberships);
  }

  /** More projects show more, in the same order. */
  lemma NarrowingIsMonotone(value: Snapshot, a: set<Uuid>, b: set<Uuid>)
    requires a <= b
    ensures Within(Narrowed(value, a), Narrowed(value, b))
  {
    IdsGrow(value, a, b);
    FilterMonotone(KeptGroup(GroupIds(value, a)), KeptGroup(GroupIds(value, b)), value.groups);
    FilterMonotone(KeptRole(RoleIds(value, a)), KeptRole(RoleIds(value, b)), value.roles);
    FilterMonotone(KeptBinding(a), KeptBinding(b), value.bindings);
    FilterMonotone(KeptDeny(a), KeptDeny(b), value.denies);
    FilterMonotone(KeptMembership(GroupIds(value, a)), KeptMembership(GroupIds(value, b)), value.memberships);
    FilterMonotone(KeptUser(UserIds(value, GroupIds(value, a))), KeptUser(UserIds(value, GroupIds(value, b))),
        value.users);
    FilterMonotone(Delegable(), Delegable(), value.permissions);
  }
}
