/**
 What the access-management lists offer on their rows, what the commands accept, and why the two agree for
 one policy state. A command's service-level check is its refusal, or None when it reaches the repository.
 */
module AccessCommands {
  import opened Basics
  import opened Scopes
  import opened PolicyTables
  import opened PolicyDecision
  import opened AccessSnapshots

  const PLATFORM_MANAGE := "platform.manage"
  const GROUP_MANAGE := "group.manage"
  const ROLE_MANAGE := "role.manage"

  /** What the stored keys guarantee: identifiers are set and unique. */
  ghost predicate WellKeyed(w: World) {
    && DistinctKeys(w.records)
    && (forall s <- w.projects :: s.organizationId != NIL_UUID && s.projectId != NIL_UUID)
    && (forall s, t | s in w.projects && t in w.projects :: s.projectId == t.projectId ==> s == t)
    && (forall m <- w.records.memberships :: m.id != NIL_UUID)
  }

  function First<T>(p: T -> bool, s: seq<T>): Option<T> {
    if s == [] then None else if p(s[0]) then Some(s[0]) else First(p, s[1..])
  }

  lemma {:induction false} FirstFinds<T>(p: T -> bool, s: seq<T>)
    ensures First(p, s).Some? ==> First(p, s).value in s && p(First(p, s).value)
    ensures First(p, s).None? ==> forall x <- s :: !p(x)
  {
    if s != [] {
      FirstFinds(p, s[1..]);
    }
  }

  function GroupIs(id: Uuid): AccessGroup -> bool {
    (g: AccessGroup) => g.id == id
  }

  function RoleIs(id: Uuid): AccessRole -> bool {
    (r: AccessRole) => r.id == id
  }

  function MembershipIs(id: Uuid): AccessMembership -> bool {
    (m: AccessMembership) => m.id == id
  }

  function ProjectIs(id: Uuid): ProjectScope -> bool {
    (s: ProjectScope) => s.projectId == id
  }

  function FindGroup(groups: seq<AccessGroup>, id: Uuid): Option<AccessGroup> {
    First(GroupIs(id), groups)
  }

  function FindRole(roles: seq<AccessRole>, id: Uuid): Option<AccessRole> {
    First(RoleIs(id), roles)
  }

  lemma FindGroupFinds(groups: seq<AccessGroup>, g: AccessGroup)
    requires g in groups && forall i, j | 0 <= i < j < |groups| :: groups[i].id != groups[j].id
    ensures FindGroup(groups, g.id) == Some(g)
  {
    FirstFinds(GroupIs(g.id), groups);
  }

  lemma FindRoleFinds(roles: seq<AccessRole>, r: AccessRole)
    requires r in roles && forall i, j | 0 <= i < j < |roles| :: roles[i].id != roles[j].id
    ensures FindRole(roles, r.id) == Some(r)
  {
    FirstFinds(RoleIs(r.id), roles);
  }

  // ---------------------------------------------------------------------------------------------
  // Loading
  // ---------------------------------------------------------------------------------------------

  function ScopeOf(s: ProjectScope): Scope {
    Scope(s.organizationId, s.projectId, NIL_UUID, NIL_UUID, ProjectKind)
  }

  /** The projects at which this caller holds a permission. */
  function ManagedIn(w: World, projects: seq<ProjectScope>, user: Uuid, act: string): set<Uuid> {
    set s | s in projects && Allowed(w.rules, Principal(user, false), act, ScopeOf(s)) :: s.projectId
  }

  function ManagedProjects(w: World, p: Principal, act: string): set<Uuid> {
    ManagedIn(w, w.projects, p.userId, act)
  }

  lemma ManagedNext(w: World, i: nat, user: Uuid, act: string)
    requires i < |w.projects|
    ensures ManagedIn(w, w.projects[..i + 1], user, act)
            == ManagedIn(w, w.projects[..i], user, act)
               + if Allowed(w.rules, Principal(user, false), act, ScopeOf(w.projects[i])) then {w.projects[i].projectId}
                   else {}
  {
    assert w.projects[..i + 1] == w.projects[..i] + [w.projects[i]];
  }

  function LoadOn(w: World, p: Principal): Result<Loaded, AccessError> {
    var platform := Authorize(w.rules, p, PLATFORM_MANAGE, PLATFORM_SCOPE);
    if platform.Err? then Err(Unevaluable)
    else if platform.value then Ok(Loaded(true, w.records, {}, {}, {}))
    else if p.disabled then Err(NotFound)
    else if AnyMalformed(w.projects) then Err(Unevaluable)
    else
      var groups := ManagedProjects(w, p, GROUP_MANAGE);
      var roles := ManagedProjects(w, p, ROLE_MANAGE);
      if groups + roles == {} then Err(NotFound)
      else Ok(Loaded(false, Narrowed(w.records, groups + roles), groups + roles, groups, roles))
  }

  predicate AnyMalformed(projects: seq<ProjectScope>) {
    exists s <- projects :: !ScopeOf(s).Valid()
  }

  /** The projects this user manages groups in and manages roles in. */
  method LoadProjects(w: World, user: Uuid) returns (r: Result<(set<Uuid>, set<Uuid>), AccessError>)
    ensures if AnyMalformed(w.projects) then r == Err(Unevaluable)
            else r == Ok((ManagedIn(w, w.projects, user, GROUP_MANAGE), ManagedIn(w, w.projects, user, ROLE_MANAGE)))
  {
    var groups, roles := {}, {};
    for i := 0 to |w.projects|
      invariant !AnyMalformed(w.projects[..i])
      invariant groups == ManagedIn(w, w.projects[..i], user, GROUP_MANAGE)
      invariant roles == ManagedIn(w, w.projects[..i], user, ROLE_MANAGE)
    {
      var s := w.projects[i];
      if !ScopeOf(s).Valid() {
        assert s in w.projects;
        return Err(Unevaluable);
      }
      ValidNext(w.projects, i);
      ManagedNext(w, i, user, GROUP_MANAGE);
      ManagedNext(w, i, user, ROLE_MANAGE);
      if Allowed(w.rules, Principal(user, false), GROUP_MANAGE, ScopeOf(s)) {
        groups := groups + {s.projectId};
      }
      if Allowed(w.rules, Principal(user, false), ROLE_MANAGE, ScopeOf(s)) {
        roles := roles + {s.projectId};
      }
    }
    assert w.projects[..|w.projects|] == w.projects;
    return Ok((groups, roles));
  }

  lemma ValidNext(projects: seq<ProjectScope>, i: nat)
    requires i < |projects| && !AnyMalformed(projects[..i]) && ScopeOf(projects[i]).Valid()
    ensures !AnyMalformed(projects[..i + 1])
  {
    assert projects[..i + 1] == projects[..i] + [projects[i]];
  }

  method Load(w: World, p: Principal) returns (r: Result<Loaded, AccessError>)
    requires DistinctKeys(w.records)
    ensures r == LoadOn(w, p)
  {
    var platform := Authorize(w.rules, p, PLATFORM_MANAGE, PLATFORM_SCOPE);
    if platform.Err? {
      return Err(Unevaluable);
    }
    if platform.value {
      return Ok(Loaded(true, w.records, {}, {}, {}));
    }
    if p.disabled {
      return Err(NotFound);
    }
    var scopes := LoadProjects(w, p.userId);
    if scopes.Err? {
      return Err(scopes.error);
    }
    var (groups, roles) := scopes.value;
    var allowed := groups + roles;
    if |allowed| == 0 {
      return Err(NotFound);
    }
    var records := FilterAccessSnapshot(w.records, allowed);
    return Ok(Loaded(false, records, allowed, groups, roles));
  }

  predicate CanManageGroup(v: Loaded, g: AccessGroup) {
    v.platform || OwnedByProject(g.ownerKind, g.ownerId, v.managedGroups)
  }

  predicate CanManageRole(v: Loaded, r: AccessRole) {
    v.platform || OwnedByProject(r.ownerKind, r.ownerId, v.managedRoles)
  }

  // ---------------------------------------------------------------------------------------------
  // Offered actions
  // ---------------------------------------------------------------------------------------------

  function UserActions(v: Loaded, p: Principal, u: AccessUser): seq<string> {
    if v.platform && !u.disabled && u.id != p.userId then ["disable"] else []
  }

  function GroupActions(v: Loaded, g: AccessGroup): seq<string> {
    if g.disabled || !CanManageGroup(v, g) then ["viewMemberships"]
    else if g.systemKey.None? then ["viewMemberships", "addMember", "disable"]
    else ["viewMemberships", "addMember"]
  }

  function RoleActions(v: Loaded, r: AccessRole): seq<string> {
    if r.active && r.systemKey.None? && CanManageRole(v, r) then ["disable"] else []
  }

  function MembershipActions(v: Loaded, m: AccessMembership): seq<string> {
    var group := FindGroup(v.records.groups, m.groupId);
    if m.active && m.source == Manual && group.Some? && CanManageGroup(v, group.value) then ["revoke"] else []
  }

  // ---------------------------------------------------------------------------------------------
  // Command checks
  // ---------------------------------------------------------------------------------------------

  /** The refusal for a decision: an evaluation error or a hidden resource. */
  function Refusal(decision: Result<bool, AccessError>): Option<AccessError> {
    if decision.Err? then Some(decision.error) else if decision.value then None else Some(NotFound)
  }

  function Decide(w: World, p: Principal, act: string, scope: Scope): Result<bool, AccessError> {
    var r := Authorize(w.rules, p, act, scope);
    if r.Err? then Err(Unevaluable) else Ok(r.value)
  }

  function PlatformAllowed(w: World, p: Principal): Result<bool, AccessError> {
    Decide(w, p, PLATFORM_MANAGE, PLATFORM_SCOPE)
  }

  function MayManageOwner(w: World, p: Principal, act: string, kind: OwnerKind,
      owner: Option<Uuid>): Result<bool, AccessError> {
    var platform := PlatformAllowed(w, p);
    if platform.Err? || platform.value || !kind.ProjectOwned? || owner.None? then platform
    else
      var project := First(ProjectIs(owner.value), w.projects);
      if project.None? then Ok(false) else Decide(w, p, act, ScopeOf(project.value))
  }

  function DisableUserCheck(w: World, p: Principal, id: Uuid): Option<AccessError> {
    var platform := PlatformAllowed(w, p);
    if Refusal(platform).Some? then Refusal(platform)
    else if p.userId == id then Some(SelfDisable)
    else if exists u <- w.records.users :: u.id == id && !u.disabled then None
    else Some(NotFound)
  }

  function AddMembershipCheck(w: World, p: Principal, id: Uuid): Option<AccessError> {
    var group := FindGroup(w.records.groups, id);
    if group.None? then Some(NotFound)
    else Refusal(MayManageOwner(w, p, GROUP_MANAGE, group.value.ownerKind, group.value.ownerId))
  }

  function DisableGroupCheck(w: World, p: Principal, id: Uuid): Option<AccessError> {
    var group := FindGroup(w.records.groups, id);
    if group.None? then Some(NotFound)
    else if group.value.systemKey.Some? then Some(ProtectedResource)
    else Refusal(MayManageOwner(w, p, GROUP_MANAGE, group.value.ownerKind, group.value.ownerId))
  }

  function DisableRoleCheck(w: World, p: Principal, id: Uuid): Option<AccessError> {
    var role := FindRole(w.records.roles, id);
    if role.None? then Some(NotFound)
    else if !role.value.active then Some(Conflict)
    else if role.value.systemKey.Some? then Some(ProtectedResource)
    else Refusal(MayManageOwner(w, p, ROLE_MANAGE, role.value.ownerKind, role.value.ownerId))
  }

  function RevokeMembershipCheck(w: World, p: Principal, id: Uuid): Option<AccessError> {
    var m := First(MembershipIs(id), w.records.memberships);
    if m.None? || m.value.id == NIL_UUID then Some(NotFound)
    else if !m.value.active then Some(Conflict)
    else if m.value.source != Manual then Some(ProtectedResource)
    else
      var group := FindGroup(w.records.groups, m.value.groupId);
      if group.None? then Some(NotFound)
      else Refusal(MayManageOwner(w, p, GROUP_MANAGE, group.value.ownerKind, group.value.ownerId))
  }

  // ---------------------------------------------------------------------------------------------
  // Offered actions are accepted commands
  // ---------------------------------------------------------------------------------------------

  /** Managing a project-owned row by the loaded projects is managing it by its owner. */
  lemma ManagedIffMayManage(w: World, p: Principal, act: string, owner: Uuid)
    requires WellKeyed(w) && p.userId != NIL_UUID && !p.disabled
    requires !Allowed(w.rules, p, PLATFORM_MANAGE, PLATFORM_SCOPE)
    ensures owner in ManagedProjects(w, p, act) <==> MayManageOwner(w, p, act, ProjectOwned, Some(owner)) == Ok(true)
    ensures MayManageOwner(w, p, act, ProjectOwned, Some(owner)).Ok?
  {
    FirstFinds(ProjectIs(owner), w.projects);
    assert Principal(p.userId, false) == p;
  }

  /** How loading and owner decisions relate for one caller. */
  lemma LoadDecides(w: World, p: Principal, act: string, kind: OwnerKind, owner: Option<Uuid>)
    requires WellKeyed(w) && (act == GROUP_MANAGE || act == ROLE_MANAGE)
    ensures var mayManage := MayManageOwner(w, p, act, kind, owner) == Ok(true);
            var loaded := LoadOn(w, p);
            && (PlatformAllowed(w, p) == Ok(true) <==> loaded.Ok? && loaded.value.platform)
            && (loaded.Ok? && loaded.value.platform ==> mayManage && loaded.value.records == w.records)
            && (mayManage && !(loaded.Ok? && loaded.value.platform) ==> loaded.Ok? && kind.ProjectOwned? && owner.Some?)
            && (loaded.Ok? && !loaded.value.platform ==>
                  && loaded.value.records == Narrowed(w.records, loaded.value.managedGroups + loaded.value.managedRoles)
                  && (mayManage <==> OwnedByProject(kind, owner, if act == GROUP_MANAGE then loaded.value.managedGroups
                      else loaded.value.managedRoles)))
  {
    if PlatformAllowed(w, p) == Ok(false) && p.userId != NIL_UUID && kind.ProjectOwned? && owner.Some? {
      if p.disabled {
        DisabledManagesNothing(w, p, act, kind, owner);
      } else {
        ManagedIffMayManage(w, p, act, owner.value);
      }
    }
  }

  lemma DisabledManagesNothing(w: World, p: Principal, act: string, kind: OwnerKind, owner: Option<Uuid>)
    requires p.disabled
    ensures MayManageOwner(w, p, act, kind, owner) != Ok(true)
  {
  }

  ghost predicate OffersOnUser(w: World, p: Principal, u: AccessUser, action: string) {
    var loaded := LoadOn(w, p);
    loaded.Ok? && u in loaded.value.records.users && action in UserActions(loaded.value, p, u)
  }

  ghost predicate OffersOnGroup(w: World, p: Principal, g: AccessGroup, action: string) {
    var loaded := LoadOn(w, p);
    loaded.Ok? && g in loaded.value.records.groups && action in GroupActions(loaded.value, g)
  }

  ghost predicate OffersOnRole(w: World, p: Principal, r: AccessRole, action: string) {
    var loaded := LoadOn(w, p);
    loaded.Ok? && r in loaded.value.records.roles && action in RoleActions(loaded.value, r)
  }

  ghost predicate OffersOnMembership(w: World, p: Principal, m: AccessMembership, action: string) {
    var loaded := LoadOn(w, p);
    loaded.Ok? && m in loaded.value.records.memberships && action in MembershipActions(loaded.value, m)
  }

  /** A user is offered for disabling exactly when the command accepts. */
  lemma UserDisableOfferedIffAccepted(w: World, p: Principal, u: AccessUser)
    requires WellKeyed(w) && u in w.records.users
    ensures OffersOnUser(w, p, u, "disable") <==> DisableUserCheck(w, p, u.id) == None
  {
    LoadDecides(w, p, GROUP_MANAGE, PlatformOwned, None);
  }

  /** An enabled group offers disabling and new members exactly when those commands accept. */
  lemma GroupActionsOfferedIffAccepted(w: World, p: Principal, g: AccessGroup)
    requires WellKeyed(w) && g in w.records.groups && !g.disabled
    ensures OffersOnGroup(w, p, g, "disable") <==> DisableGroupCheck(w, p, g.id) == None
    ensures OffersOnGroup(w, p, g, "addMember") <==> AddMembershipCheck(w, p, g.id) == None
  {
    LoadDecides(w, p, GROUP_MANAGE, g.ownerKind, g.ownerId);
    FindGroupFinds(w.records.groups, g);
    var loaded := LoadOn(w, p);
    if loaded.Ok? && !loaded.value.platform {
      NarrowedMembers(w.records, loaded.value.managedGroups + loaded.value.managedRoles);
    }
  }

  /** A role is offered for disabling exactly when the command accepts. */
  lemma RoleDisableOfferedIffAccepted(w: World, p: Principal, r: AccessRole)
    requires WellKeyed(w) && r in w.records.roles
    ensures OffersOnRole(w, p, r, "disable") <==> DisableRoleCheck(w, p, r.id) == None
  {
    LoadDecides(w, p, ROLE_MANAGE, r.ownerKind, r.ownerId);
    FindRoleFinds(w.records.roles, r);
    var loaded := LoadOn(w, p);
    if loaded.Ok? && !loaded.value.platform {
      NarrowedMembers(w.records, loaded.value.managedGroups + loaded.value.managedRoles);
    }
  }

  lemma FindMembershipFinds(rows: seq<AccessMembership>, m: AccessMembership)
    requires m in rows && forall i, j | 0 <= i < j < |rows| :: rows[i].id != rows[j].id
    ensures First(MembershipIs(m.id), rows) == Some(m)
  {
    FirstFinds(MembershipIs(m.id), rows);
  }

  /** The group of a row found in the stored groups is the one found after narrowing, if it is kept. */
  lemma FindAfterNarrowing(value: Snapshot, projects: set<Uuid>, id: Uuid)
    requires DistinctKeys(value)
    ensures var found := FindGroup(value.groups, id);
            var kept := FindGroup(Narrowed(value, projects).groups, id);
            kept == if found.Some? && id in GroupIds(value, projects) then found else None
  {
    NarrowedMembers(value, projects);
    FirstFinds(GroupIs(id), value.groups);
    FirstFinds(GroupIs(id), Narrowed(value, projects).groups);
  }

  /** What narrowing does to one membership and its group, for a caller without platform management. */
  lemma NarrowedMembershipActions(w: World, p: Principal, m: AccessMembership)
    requires WellKeyed(w) && m in w.records.memberships && LoadOn(w, p).Ok? && !LoadOn(w, p).value.platform
    ensures var v := LoadOn(w, p).value;
            var group := FindGroup(w.records.groups, m.groupId);
            m in v.records.memberships && MembershipActions(v, m) != []
            <==> m.active && m.source == Manual && group.Some? && OwnedByProject(group.value.ownerKind,
                group.value.ownerId, v.managedGroups)
  {
    var v := LoadOn(w, p).value;
    var projects := v.managedGroups + v.managedRoles;
    LoadDecides(w, p, GROUP_MANAGE, PlatformOwned, None);
    NarrowedMembers(w.records, projects);
    FindAfterNarrowing(w.records, projects, m.groupId);
    FirstFinds(GroupIs(m.groupId), w.records.groups);
  }

  /** A membership is offered for revoking exactly when the command accepts. */
  lemma MembershipRevokeOfferedIffAccepted(w: World, p: Principal, m: AccessMembership)
    requires WellKeyed(w) && m in w.records.memberships
    ensures OffersOnMembership(w, p, m, "revoke") <==> RevokeMembershipCheck(w, p, m.id) == None
  {
    FindMembershipFinds(w.records.memberships, m);
    var group := FindGroup(w.records.groups, m.groupId);
    LoadDecides(w, p, GROUP_MANAGE, PlatformOwned, None);
    if group.Some? {
      LoadDecides(w, p, GROUP_MANAGE, group.value.ownerKind, group.value.ownerId);
    }
    if LoadOn(w, p).Ok? && !LoadOn(w, p).value.platform {
      NarrowedMembershipActions(w, p, m);
    }
  }
}
