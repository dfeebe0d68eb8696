/**
 Access mutations over the authorization tables. A protected mutation takes the continuity lock, does its
 work, counts the effective platform managers and aborts when none is left; the other mutations only add
 rows, turn rows on again or lift denies.
 */
module AccessRepository {
  import opened Basics
  import opened Scopes
  import opened PolicyTables

  datatype AccessError = NotFound | Conflict | LastPlatformManager

  const MANAGE := "platform.manage"

  // ---------------------------------------------------------------------------------------------
  // Effective platform managers
  // ---------------------------------------------------------------------------------------------

  /** A membership and a platform binding that together make a user a manager. */
  predicate ManagerPath(t: Tables, m: Uuid, b: Uuid, manualOnly: bool) {
    && LiveMember(t, m) && (manualOnly ==> t.memberships[m].source == Manual)
    && b in t.platformBindings && t.platformBindings[b].active
    && t.platformBindings[b].groupId == t.memberships[m].groupId
    && LiveRole(t, t.platformBindings[b].roleId, MANAGE)
  }

  /** The managers: as the continuity query counts them, or as the policy engine grants them (manual only). */
  function Managers(t: Tables, manualOnly: bool): set<Uuid> {
    set m, b | m in t.memberships && b in t.platformBindings && ManagerPath(t, m, b, manualOnly) ::
        t.memberships[m].userId
  }

  // ---------------------------------------------------------------------------------------------
  // Protected work
  // ---------------------------------------------------------------------------------------------

  /** The rows one transaction turns off. */
  datatype Delta = Delta(
    users: set<Uuid>, groups: set<Uuid>, roles: set<Uuid>, memberships: set<Uuid>, bindings: set<Uuid>,
    platformBindings: set<Uuid>, denies: set<Uuid>)

  const NO_ROWS := Delta({}, {}, {}, {}, {}, {}, {})

  function Apply(t: Tables, d: Delta): Tables {
    t.(users := map u | u in t.users :: if u in d.users then t.users[u].(disabled := true) else t.users[u],
       groups := map g | g in t.groups :: if g in d.groups then t.groups[g].(disabled := true) else t.groups[g],
       roles := map r | r in t.roles :: if r in d.roles then t.roles[r].(active := false) else t.roles[r],
       memberships := map m | m in t.memberships :: if m in d.memberships then t.memberships[m].(active := false)
           else t.memberships[m],
       bindings := map b | b in t.bindings :: if b in d.bindings then t.bindings[b].(active := false)
           else t.bindings[b],
       platformBindings := map b | b in t.platformBindings ::
         if b in d.platformBindings then t.platformBindings[b].(active := false) else t.platformBindings[b],
       denies := map x | x in t.denies :: if x in d.denies then t.denies[x].(active := false) else t.denies[x])
  }

  datatype Protected =
    | DisableGroup(group: Uuid)
    | DisableUser(user: Uuid)
    | RevokeMembership(membership: Uuid)
    | DisableRole(role: Uuid)
    | RevokeBinding(binding: Uuid)

  /** Whether the owner of a group or role resolves to an active organization or project. */
  predicate OwnerResolves(t: Tables, organizations: set<Uuid>, kind: OwnerKind, owner: Option<Uuid>) {
    match kind
    case PlatformOwned => true
    case OrganizationOwned => owner.Some? && owner.value in organizations
    case ProjectOwned =>
      owner.Some? && owner.value in t.projects && t.projects[owner.value].active
          && t.projects[owner.value].organizationId != NIL_UUID
  }

  predicate GroupOwnerResolves(t: Tables, organizations: set<Uuid>, group: Uuid) {
    group in t.groups && OwnerResolves(t, organizations, t.groups[group].ownerKind, t.groups[group].ownerId)
  }

  /** Disabling a group also turns off its bindings and denies: the table's trigger. */
  function GroupDelta(t: Tables, group: Uuid): Delta {
    NO_ROWS.(groups := {group},
             bindings := (set b | b in t.bindings && t.bindings[b].groupId == group && t.bindings[b].active),
             platformBindings := (set b | b in t.platformBindings && t.platformBindings[b].groupId == group
                 && t.platformBindings[b].active),
             denies := (set x | x in t.denies && t.denies[x].groupId == group && t.denies[x].active))
  }

  function MembershipWork(t: Tables, organizations: set<Uuid>, m: Uuid): Result<Delta, AccessError> {
    if m !in t.memberships || t.memberships[m].groupId == NIL_UUID || !GroupOwnerResolves(t, organizations,
        t.memberships[m].groupId) then Err(NotFound)
    else if t.memberships[m].source != Manual || !t.memberships[m].active then Err(Conflict)
    else Ok(NO_ROWS.(memberships := {m}))
  }

  function RoleWork(t: Tables, organizations: set<Uuid>, role: Uuid): Result<Delta, AccessError> {
    if role !in t.roles || !OwnerResolves(t, organizations, t.roles[role].ownerKind, t.roles[role].ownerId)
        then Err(NotFound)
    else if t.roles[role].systemKey.Some? || !t.roles[role].active then Err(Conflict)
    else Ok(NO_ROWS.(roles := {role}))
  }

  function BindingWork(t: Tables, b: Uuid): Result<Delta, AccessError> {
    if b in t.bindings && t.bindings[b].organizationId != NIL_UUID then
      if t.bindings[b].active then Ok(NO_ROWS.(bindings := {b})) else Err(Conflict)
    else if b in t.platformBindings then
      if t.platformBindings[b].active then Ok(NO_ROWS.(platformBindings := {b})) else Err(Conflict)
    else Err(NotFound)
  }

  /** What a protected mutation turns off, or why it cannot. */
  function Work(t: Tables, organizations: set<Uuid>, op: Protected): Result<Delta, AccessError> {
    match op
    case DisableGroup(group) =>
      if !GroupOwnerResolves(t, organizations, group) || t.groups[group].disabled then Err(NotFound)
          else Ok(GroupDelta(t, group))
    case DisableUser(user) =>
      if user !in t.users || t.users[user].disabled then Err(NotFound) else Ok(NO_ROWS.(users := {user}))
    case RevokeMembership(m) => MembershipWork(t, organizations, m)
    case DisableRole(role) => RoleWork(t, organizations, role)
    case RevokeBinding(b) => BindingWork(t, b)
  }

  /** The tables after the work, which turns off exactly its rows or nothing at all. */
  ghost predicate Worked(before: Tables, organizations: set<Uuid>, op: Protected, after: Tables,
      error: Option<AccessError>) {
    match Work(before, organizations, op)
    case Ok(d) => error == None && after == Apply(before, d)
    case Err(e) => error == Some(e) && after == before
  }

  /** Tables with equal rows are equal. */
  lemma SameTables(a: Tables, b: Tables)
    requires a.users == b.users && a.groups == b.groups && a.roles == b.roles && a.rolePermissions == b.rolePermissions
    requires a.memberships == b.memberships && a.bindings == b.bindings && a.platformBindings == b.platformBindings
    requires a.denies == b.denies && a.projects == b.projects
    ensures a == b
  {
  }

  /** No row of the group is active, and every other row is as it was. */
  function BindingsOff(bindings: map<Uuid, Binding>, group: Uuid): map<Uuid, Binding> {
    map b | b in bindings :: if bindings[b].groupId == group then bindings[b].(active := false) else bindings[b]
  }

  function PlatformBindingsOff(bindings: map<Uuid, PlatformBinding>, group: Uuid): map<Uuid, PlatformBinding> {
    map b | b in bindings :: if bindings[b].groupId == group then bindings[b].(active := false) else bindings[b]
  }

  function DeniesOff(denies: map<Uuid, Deny>, group: Uuid): map<Uuid, Deny> {
    map x | x in denies :: if denies[x].groupId == group then denies[x].(active := false) else denies[x]
  }

  /** The rows a disabled group takes with it, table by table. */
  lemma GroupRowsOff(t: Tables, group: Uuid)
    requires group in t.groups
    ensures var after := Apply(t, GroupDelta(t, group));
            && after.groups == t.groups[group := t.groups[group].(disabled := true)]
            && after.bindings == BindingsOff(t.bindings, group)
            && after.platformBindings == PlatformBindingsOff(t.platformBindings, group)
            && after.denies == DeniesOff(t.denies, group)
            && after.users == t.users && after.roles == t.roles && after.memberships == t.memberships
  {
  }

  /** One protected mutation run alone: work, then the count over its own writes. */
  function GuardedOn(t: Tables, organizations: set<Uuid>, op: Protected): Result<Tables, AccessError> {
    var work := Work(t, organizations, op);
    if work.Err? then Err(work.error)
    else if Managers(Apply(t, work.value), false) == {} then Err(LastPlatformManager)
    else Ok(Apply(t, work.value))
  }

  // ---------------------------------------------------------------------------------------------
  // Unprotected mutations
  // ---------------------------------------------------------------------------------------------

  datatype BindingInput = BindingInput(
    groupId: Uuid, roleIds: seq<Uuid>, organizationId: Uuid, scopeKind: ScopeKind, projectId: Uuid,
    environmentId: Option<Uuid>, applicationId: Option<Uuid>)

  datatype Unprotected =
    | CreateGroup(id: Uuid, group: Group)
    | CreateRole(id: Uuid, role: Role, permissions: set<string>)
    | AddMembership(id: Uuid, groupId: Uuid, userId: Uuid)
    | CreateBindings(ids: seq<Uuid>, input: BindingInput)
    | CreateDeny(id: Uuid, deny: Deny)
    | RevokeDeny(denyId: Uuid)

  /** The manual membership row of a user in a group; the table's unique index allows at most one. */
  predicate IsManualMembership(t: Tables, m: Uuid, groupId: Uuid, userId: Uuid) {
    m in t.memberships && t.memberships[m].groupId == groupId && t.memberships[m].userId == userId
        && t.memberships[m].source == Manual
  }

  ghost predicate OneManualMembership(t: Tables) {
    forall m, n | m in t.memberships && n in t.memberships && t.memberships[n].source == Manual ::
      IsManualMembership(t, m, t.memberships[n].groupId, t.memberships[n].userId) ==> m == n
  }

  /** A row for a user and group without one leaves each pair at most one. */
  lemma NewManualMembership(t: Tables, id: Uuid, groupId: Uuid, userId: Uuid)
    requires OneManualMembership(t) && id !in t.memberships
    requires forall m :: !IsManualMembership(t, m, groupId, userId)
    ensures var row := Membership(groupId, userId, Manual, None, true);
            OneManualMembership(t.(memberships := t.memberships[id := row]))
  {
    var after := t.(memberships := t.memberships[id := Membership(groupId, userId, Manual, None, true)]);
    forall m, n | m in after.memberships && n in after.memberships && after.memberships[n].source == Manual
      && IsManualMembership(after, m, after.memberships[n].groupId, after.memberships[n].userId)
      ensures m == n
    {
      if m != id && n != id {
        assert IsManualMembership(t, m, t.memberships[n].groupId, t.memberships[n].userId);
      } else if m != id {
        assert !IsManualMembership(t, m, groupId, userId);
      } else if n != id {
        assert !IsManualMembership(t, n, groupId, userId);
      }
    }
  }

  /** Reactivates the manual membership there is, or inserts one. */
  ghost function AddMembershipOn(t: Tables, organizations: set<Uuid>, id: Uuid, groupId: Uuid,
      userId: Uuid): Result<Tables, AccessError> {
    if !GroupOwnerResolves(t, organizations, groupId) then Err(NotFound)
    else if m :| IsManualMembership(t, m, groupId, userId) then
      if t.memberships[m].active || m == NIL_UUID then Err(Conflict)
      else Ok(t.(memberships := t.memberships[m := t.memberships[m].(active := true)]))
    else if userId !in t.users || id in t.memberships then Err(Conflict)
    else Ok(t.(memberships := t.memberships[id := Membership(groupId, userId, Manual, None, true)]))
  }

  /** An equal active scoped binding, or any platform binding of the pair. */
  predicate BindingPresent(t: Tables, input: BindingInput, role: Uuid) {
    if input.scopeKind.PlatformKind?
    then exists b <- t.platformBindings ::
      (t.platformBindings[b].groupId == input.groupId && t.platformBindings[b].roleId == role)
    else exists b <- t.bindings :: t.bindings[b] == ScopedRow(input, role, t.bindings[b].organizationId)
  }

  function ScopedRow(input: BindingInput, role: Uuid, organization: Uuid): Binding {
    Binding(input.groupId, role, organization, input.scopeKind, input.projectId, input.environmentId,
        input.applicationId, true)
  }

  /** The foreign keys and the column check hold for a row of this input. */
  predicate RowFits(t: Tables, input: BindingInput, role: Uuid) {
    && input.groupId in t.groups && role in t.roles
    && (input.scopeKind.PlatformKind? || ConsistentColumns(input.scopeKind, input.environmentId, input.applicationId))
  }

  predicate IdTaken(t: Tables, input: BindingInput, id: Uuid) {
    if input.scopeKind.PlatformKind? then id in t.platformBindings else id in t.bindings
  }

  function Insert(t: Tables, input: BindingInput, role: Uuid, id: Uuid): Tables {
    if input.scopeKind.PlatformKind?
    then t.(platformBindings := t.platformBindings[id := PlatformBinding(input.groupId, role, true)])
    else t.(bindings := t.bindings[id := ScopedRow(input, role, input.organizationId)])
  }

  /** Inserts one binding a role, in order, or stops at the first that is refused. */
  function BindAll(t: Tables, input: BindingInput, ids: seq<Uuid>, n: nat): Result<Tables, AccessError>
    requires n <= |ids| == |input.roleIds|
  {
    if n == 0 then Ok(t)
    else
      var prior := BindAll(t, input, ids, n - 1);
      if prior.Err? then prior
      else if BindingPresent(prior.value, input, input.roleIds[n - 1]) then Err(Conflict)
      else if !RowFits(prior.value, input, input.roleIds[n - 1]) || IdTaken(prior.value, input, ids[n - 1])
          then Err(Conflict)
      else Ok(Insert(prior.value, input, input.roleIds[n - 1], ids[n - 1]))
  }

  ghost function UnprotectedOn(t: Tables, organizations: set<Uuid>, op: Unprotected): Result<Tables, AccessError> {
    match op
    case CreateGroup(id, group) =>
      if !OwnerResolves(t, organizations, group.ownerKind, group.ownerId) then Err(NotFound)
      else if id in t.groups then Err(Conflict)
      else Ok(t.(groups := t.groups[id := group]))
    case CreateRole(id, role, permissions) =>
      if !OwnerResolves(t, organizations, role.ownerKind, role.ownerId) then Err(NotFound)
      else if id in t.roles then Err(Conflict)
      else Ok(t.(roles := t.roles[id := role],
                 rolePermissions := t.rolePermissions + (set p | p in permissions :: (id, p))))
    case AddMembership(id, groupId, userId) => AddMembershipOn(t, organizations, id, groupId, userId)
    case CreateBindings(ids, input) => if |ids| != |input.roleIds| then Err(Conflict) else BindAll(t, input, ids, |ids|)
    case CreateDeny(id, deny) =>
      if deny.groupId !in t.groups || id in t.denies || !ConsistentColumns(deny.scopeKind, deny.environmentId,
          deny.applicationId) then Err(Conflict)
      else Ok(t.(denies := t.denies[id := deny]))
    case RevokeDeny(id) =>
      if id !in t.denies || t.denies[id].organizationId == NIL_UUID then Err(NotFound)
      else if !t.denies[id].active then Err(Conflict)
      else Ok(t.(denies := t.denies[id := t.denies[id].(active := false)]))
  }

  // ---------------------------------------------------------------------------------------------
  // The repository
  // ---------------------------------------------------------------------------------------------

  class Repository {
    var tables: Tables
    var organizations: set<Uuid>

    constructor (tables: Tables, organizations: set<Uuid>)
      ensures this.tables == tables && this.organizations == organizations
    {
      this.tables, this.organizations := tables, organizations;
    }

    method ResolveGroupOwner(group: Uuid) returns (found: bool)
      ensures found <==> GroupOwnerResolves(tables, organizations, group)
    {
      found := group in tables.groups
        && OwnerResolves(tables, organizations, tables.groups[group].ownerKind, tables.groups[group].ownerId);
    }

    /** Disables the group; the table's trigger then turns its active bindings and denies off. */
    method DisableGroupRow(group: Uuid) returns (r: Option<AccessError>)
      modifies this`tables
      ensures Worked(old(tables), organizations, DisableGroup(group), tables, r)
    {
      var owner := ResolveGroupOwner(group);
      if !owner || tables.groups[group].disabled {
        return Some(NotFound);
      }
      ghost var before := tables;
      tables := tables.(groups := tables.groups[group := tables.groups[group].(disabled := true)]);
      DisablePolicies(group);
      GroupRowsOff(before, group);
      SameTables(tables, Apply(before, GroupDelta(before, group)));
      return None;
    }

    /** The trigger: one statement a table turns the active rows of the group off. */
    method DisablePolicies(group: Uuid)
      modifies this`tables
      ensures tables == old(tables).(bindings := BindingsOff(old(tables).bindings, group),
                                     platformBindings := PlatformBindingsOff(old(tables).platformBindings, group),
                                     denies := DeniesOff(old(tables).denies, group))
    {
      tables := tables.(bindings := map b | b in tables.bindings ::
        if tables.bindings[b].groupId == group && tables.bindings[b].active
        then tables.bindings[b].(active := false) else tables.bindings[b]);
      tables := tables.(denies := map x | x in tables.denies ::
        if tables.denies[x].groupId == group && tables.denies[x].active
        then tables.denies[x].(active := false) else tables.denies[x]);
      tables := tables.(platformBindings := map b | b in tables.platformBindings ::
        if tables.platformBindings[b].groupId == group && tables.platformBindings[b].active
        then tables.platformBindings[b].(active := false) else tables.platformBindings[b]);
    }

    method DisableUserRow(user: Uuid) returns (r: Option<AccessError>)
      modifies this`tables
      ensures Worked(old(tables), organizations, DisableUser(user), tables, r)
    {
      if user !in tables.users || tables.users[user].disabled {
        return Some(NotFound);
      }
      ghost var before := tables;
      tables := tables.(users := tables.users[user := tables.users[user].(disabled := true)]);
      SameTables(tables, Apply(before, NO_ROWS.(users := {user})));
      return None;
    }

    method RevokeMembershipRow(m: Uuid) returns (r: Option<AccessError>)
      modifies this`tables
      ensures Worked(old(tables), organizations, RevokeMembership(m), tables, r)
    {
      if m !in tables.memberships || tables.memberships[m].groupId == NIL_UUID {
        return Some(NotFound);
      }
      var owner := ResolveGroupOwner(tables.memberships[m].groupId);
      if !owner {
        return Some(NotFound);
      }
      if tables.memberships[m].source != Manual || !tables.memberships[m].active {
        return Some(Conflict);
      }
      ghost var before := tables;
      tables := tables.(memberships := tables.memberships[m := tables.memberships[m].(active := false)]);
      SameTables(tables, Apply(before, NO_ROWS.(memberships := {m})));
      return None;
    }

    method DisableRoleRow(role: Uuid) returns (r: Option<AccessError>)
      modifies this`tables
      ensures Worked(old(tables), organizations, DisableRole(role), tables, r)
    {
      if role !in tables.roles || !OwnerResolves(tables, organizations, tables.roles[role].ownerKind,
          tables.roles[role].ownerId) {
        return Some(NotFound);
      }
      if tables.roles[role].systemKey.Some? || !tables.roles[role].active {
        return Some(Conflict);
      }
      ghost var before := tables;
      tables := tables.(roles := tables.roles[role := tables.roles[role].(active := false)]);
      SameTables(tables, Apply(before, NO_ROWS.(roles := {role})));
      return None;
    }

    method RevokeScopedBinding(b: Uuid) returns (r: Option<AccessError>)
      requires b in tables.bindings && tables.bindings[b].organizationId != NIL_UUID
      modifies this`tables
      ensures Worked(old(tables), organizations, RevokeBinding(b), tables, r)
    {
      if !tables.bindings[b].active {
        return Some(Conflict);
      }
      ghost var before := tables;
      tables := tables.(bindings := tables.bindings[b := tables.bindings[b].(active := false)]);
      SameTables(tables, Apply(before, NO_ROWS.(bindings := {b})));
      return None;
    }

    method RevokePlatformBinding(b: Uuid) returns (r: Option<AccessError>)
      requires !(b in tables.bindings && tables.bindings[b].organizationId != NIL_UUID)
      modifies this`tables
      ensures Worked(old(tables), organizations, RevokeBinding(b), tables, r)
    {
      if b !in tables.platformBindings {
        return Some(NotFound);
      }
      if !tables.platformBindings[b].active {
        return Some(Conflict);
      }
      ghost var before := tables;
      tables := tables.(platformBindings := tables.platformBindings[b := tables.platformBindings[b].(active := false)]);
      SameTables(tables, Apply(before, NO_ROWS.(platformBindings := {b})));
      return None;
    }

    /** Looks among the scoped bindings first and then among those of the platform. */
    method RevokeBindingRow(b: Uuid) returns (r: Option<AccessError>)
      modifies this`tables
      ensures Worked(old(tables), organizations, RevokeBinding(b), tables, r)
    {
      if b in tables.bindings && tables.bindings[b].organizationId != NIL_UUID {
        r := RevokeScopedBinding(b);
      } else {
        r := RevokePlatformBinding(b);
      }
    }

    /** The work of a protected mutation on the open transaction. */
    method DoWork(op: Protected) returns (r: Option<AccessError>)
      modifies this`tables
      ensures Worked(old(tables), organizations, op, tables, r)
    {
      match op
      case DisableGroup(group) => r := DisableGroupRow(group);
      case DisableUser(user) => r := DisableUserRow(user);
      case RevokeMembership(m) => r := RevokeMembershipRow(m);
      case DisableRole(role) => r := DisableRoleRow(role);
      case RevokeBinding(b) => r := RevokeBindingRow(b);
    }

    /** Lock, work, count; zero managers takes the work back. */
    method MutateProtected(op: Protected) returns (r: Option<AccessError>)
      modifies this`tables
      ensures match GuardedOn(old(tables), organizations, op)
              case Ok(t) => r == None && tables == t
              case Err(e) => r == Some(e) && tables == old(tables)
    {
      var savepoint := tables;
      r := DoWork(op);
      if r.None? && |Managers(tables, false)| == 0 {
        r := Some(LastPlatformManager);
      }
      if r.Some? {
        tables := savepoint;
      }
    }

    method FindManualMembership(groupId: Uuid, userId: Uuid) returns (found: Option<Uuid>)
      ensures found.Some? ==> IsManualMembership(tables, found.value, groupId, userId)
      ensures found.None? ==> forall m :: !IsManualMembership(tables, m, groupId, userId)
    {
      var rest := tables.memberships.Keys;
      while rest != {}
        invariant forall m <- tables.memberships.Keys - rest :: !IsManualMembership(tables, m, groupId, userId)
        decreases |rest|
      {
        var m :| m in rest;
        if IsManualMembership(tables, m, groupId, userId) {
          return Some(m);
        }
        rest := rest - {m};
      }
      return None;
    }

    method AddMembership(id: Uuid, groupId: Uuid, userId: Uuid) returns (r: Result<Uuid, AccessError>)
      requires OneManualMembership(tables)
      modifies this`tables
      ensures OneManualMembership(tables)
      ensures match AddMembershipOn(old(tables), organizations, id, groupId, userId)
              case Ok(t) => r.Ok? && tables == t && IsManualMembership(t, r.value, groupId, userId)
                  && t.memberships[r.value].active
              case Err(e) => r == Err(e) && tables == old(tables)
    {
      var owner := ResolveGroupOwner(groupId);
      if !owner {
        return Err(NotFound);
      }
      var existing := FindManualMembership(groupId, userId);
      if existing.Some? {
        if tables.memberships[existing.value].active || existing.value == NIL_UUID {
          return Err(Conflict);
        }
        var row := tables.memberships[existing.value].(active := true);
        tables := tables.(memberships := tables.memberships[existing.value := row]);
        return Ok(existing.value);
      }
      if userId !in tables.users || id in tables.memberships {
        return Err(Conflict);
      }
      NewManualMembership(tables, id, groupId, userId);
      tables := tables.(memberships := tables.memberships[id := Membership(groupId, userId, Manual, None, true)]);
      return Ok(id);
    }

    /** Inserts every binding or none. */
    method CreateBindings(ids: seq<Uuid>, input: BindingInput) returns (r: Option<AccessError>)
      requires |ids| == |input.roleIds|
      modifies this`tables
      ensures match BindAll(old(tables), input, ids, |ids|)
              case Ok(t) => r == None && tables == t
              case Err(e) => r == Some(e) && tables == old(tables)
    {
      var savepoint := tables;
      for n := 0 to |ids|
        invariant BindAll(savepoint, input, ids, n) == Ok(tables)
      {
        var role := input.roleIds[n];
        if BindingPresent(tables, input, role) || !RowFits(tables, input, role) || IdTaken(tables, input, ids[n]) {
          BindAllStopsAt(savepoint, input, ids, n + 1, |ids|);
          tables := savepoint;
          return Some(Conflict);
        }
        tables := Insert(tables, input, role, ids[n]);
      }
      return None;
    }
  }

  // ---------------------------------------------------------------------------------------------
  // All or nothing
  // ---------------------------------------------------------------------------------------------

  lemma {:induction false} BindAllStopsAt(t: Tables, input: BindingInput, ids: seq<Uuid>, m: nat, n: nat)
    requires m <= n <= |ids| == |input.roleIds| && BindAll(t, input, ids, m).Err?
    ensures BindAll(t, input, ids, n) == Err(Conflict)
  {
    if m < n {
      BindAllStopsAt(t, input, ids, m, n - 1);
    } else if m > 0 && BindAll(t, input, ids, m - 1).Err? {
      BindAllStopsAt(t, input, ids, m - 1, m - 1);
    }
  }

  predicate Refused(t: Tables, input: BindingInput, role: Uuid, id: Uuid) {
    BindingPresent(t, input, role) || !RowFits(t, input, role) || IdTaken(t, input, id)
  }

  /** Role k is unbound and fits, its identifier is unused, and neither occurs earlier in the request. */
  predicate BindableAt(t: Tables, input: BindingInput, ids: seq<Uuid>, k: nat)
    requires k < |ids| == |input.roleIds|
  {
    !Refused(t, input, input.roleIds[k], ids[k]) && input.roleIds[k] !in input.roleIds[..k] && ids[k] !in ids[..k]
  }

  /** The request is acceptable as a whole. */
  ghost predicate AllBindable(t: Tables, input: BindingInput, ids: seq<Uuid>, n: nat)
    requires n <= |ids| == |input.roleIds|
  {
    forall k: nat | k < n :: BindableAt(t, input, ids, k)
  }

  /** A table after n insertions: its old rows, and the first n of these rows under the first n identifiers. */
  ghost predicate Extends<V>(table: map<Uuid, V>, after: map<Uuid, V>, ids: seq<Uuid>, rows: seq<V>, n: nat)
    requires n <= |ids| == |rows|
  {
    && (forall b :: b in after <==> b in table || b in ids[..n])
    && (forall b <- table :: b in after && after[b] == table[b])
    && (forall k | 0 <= k < n :: ids[k] in after && after[ids[k]] == rows[k])
  }

  lemma ExtendsByOne<V>(table: map<Uuid, V>, prior: map<Uuid, V>, ids: seq<Uuid>, rows: seq<V>, n: nat)
    requires n < |ids| == |rows| && Extends(table, prior, ids, rows, n) && ids[n] !in prior
    ensures Extends(table, prior[ids[n] := rows[n]], ids, rows, n + 1)
  {
    assert ids[..n + 1] == ids[..n] + [ids[n]];
  }

  function ScopedRows(input: BindingInput): (rows: seq<Binding>)
    ensures |rows| == |input.roleIds|
  {
    seq(|input.roleIds|, k requires 0 <= k < |input.roleIds| =>
        ScopedRow(input, input.roleIds[k], input.organizationId))
  }

  function PlatformRows(input: BindingInput): (rows: seq<PlatformBinding>)
    ensures |rows| == |input.roleIds|
  {
    seq(|input.roleIds|, k requires 0 <= k < |input.roleIds| => PlatformBinding(input.groupId, input.roleIds[k], true))
  }

  /** The rows there are after n insertions: the old ones, and one a role. */
  ghost predicate Bound(t: Tables, after: Tables, input: BindingInput, ids: seq<Uuid>, n: nat)
    requires n <= |ids| == |input.roleIds|
  {
    if input.scopeKind.PlatformKind? then
      && after == t.(platformBindings := after.platformBindings)
      && Extends(t.platformBindings, after.platformBindings, ids, PlatformRows(input), n)
    else
      && after == t.(bindings := after.bindings)
      && Extends(t.bindings, after.bindings, ids, ScopedRows(input), n)
  }

  lemma PresentAfterInserts(t: Tables, after: Tables, input: BindingInput, ids: seq<Uuid>, n: nat, role: Uuid)
    requires n <= |ids| == |input.roleIds| && Bound(t, after, input, ids, n)
    ensures BindingPresent(after, input, role) <==> BindingPresent(t, input, role) || role in input.roleIds[..n]
  {
    if role in input.roleIds[..n] {
      var k :| 0 <= k < n && input.roleIds[k] == role;
      assert ids[k] in ids[..n];
    }
    if BindingPresent(after, input, role) && !BindingPresent(t, input, role) {
      NewlyPresentWasInserted(t, after, input, ids, n, role);
    }
  }

  lemma NewlyPresentWasInserted(t: Tables, after: Tables, input: BindingInput, ids: seq<Uuid>, n: nat, role: Uuid)
    requires n <= |ids| == |input.roleIds| && Bound(t, after, input, ids, n)
    requires BindingPresent(after, input, role) && !BindingPresent(t, input, role)
    ensures role in input.roleIds[..n]
  {
    if input.scopeKind.PlatformKind? {
      var b :| b in after.platformBindings && after.platformBindings[b].groupId == input.groupId
          && after.platformBindings[b].roleId == role;
      var k :| 0 <= k < n && ids[k] == b;
      assert input.roleIds[..n][k] == role;
    } else {
      var b :| b in after.bindings && after.bindings[b] == ScopedRow(input, role, after.bindings[b].organizationId);
      var k :| 0 <= k < n && ids[k] == b;
      assert input.roleIds[..n][k] == role;
    }
  }

  /** One more role is bindable in the original tables exactly when it is accepted after the insertions so far. */
  lemma OneMoreBindable(t: Tables, prior: Tables, input: BindingInput, ids: seq<Uuid>, n: nat)
    requires n < |ids| == |input.roleIds| && Bound(t, prior, input, ids, n)
    ensures BindableAt(t, input, ids, n) <==> !Refused(prior, input, input.roleIds[n], ids[n])
  {
    PresentAfterInserts(t, prior, input, ids, n, input.roleIds[n]);
    FitsAndTakenAfterInserts(t, prior, input, ids, n, input.roleIds[n], ids[n]);
  }

  lemma FitsAndTakenAfterInserts(t: Tables, prior: Tables, input: BindingInput, ids: seq<Uuid>, n: nat, role: Uuid,
      id: Uuid)
    requires n <= |ids| == |input.roleIds| && Bound(t, prior, input, ids, n)
    ensures RowFits(prior, input, role) <==> RowFits(t, input, role)
    ensures IdTaken(prior, input, id) <==> IdTaken(t, input, id) || id in ids[..n]
  {
  }

  lemma OneMoreBound(t: Tables, prior: Tables, input: BindingInput, ids: seq<Uuid>, n: nat)
    requires n < |ids| == |input.roleIds| && Bound(t, prior, input, ids, n) && !IdTaken(prior, input, ids[n])
    ensures Bound(t, Insert(prior, input, input.roleIds[n], ids[n]), input, ids, n + 1)
  {
    if input.scopeKind.PlatformKind? {
      ExtendsByOne(t.platformBindings, prior.platformBindings, ids, PlatformRows(input), n);
    } else {
      ExtendsByOne(t.bindings, prior.bindings, ids, ScopedRows(input), n);
    }
  }

  lemma AllBindableNext(t: Tables, input: BindingInput, ids: seq<Uuid>, n: nat)
    requires n < |ids| == |input.roleIds|
    ensures AllBindable(t, input, ids, n + 1) <==> AllBindable(t, input, ids, n) && BindableAt(t, input, ids, n)
  {
  }

  lemma BindOneMore(t: Tables, prior: Tables, input: BindingInput, ids: seq<Uuid>, n: nat)
    requires n < |ids| == |input.roleIds| && Bound(t, prior, input, ids, n)
    ensures BindableAt(t, input, ids, n) <==> !Refused(prior, input, input.roleIds[n], ids[n])
    ensures !Refused(prior, input, input.roleIds[n], ids[n])
            ==> Bound(t, Insert(prior, input, input.roleIds[n], ids[n]), input, ids, n + 1)
  {
    OneMoreBindable(t, prior, input, ids, n);
    if !Refused(prior, input, input.roleIds[n], ids[n]) {
      OneMoreBound(t, prior, input, ids, n);
    }
  }

  /** What the result after n roles means. */
  ghost predicate BindMeans(t: Tables, r: Result<Tables, AccessError>, input: BindingInput, ids: seq<Uuid>, n: nat)
    requires n <= |ids| == |input.roleIds|
  {
    (r.Ok? <==> AllBindable(t, input, ids, n)) && (r.Ok? ==> Bound(t, r.value, input, ids, n))
  }

  function BindNext(prior: Result<Tables, AccessError>, input: BindingInput, ids: seq<Uuid>,
      n: nat): Result<Tables, AccessError>
    requires n < |ids| == |input.roleIds|
  {
    if prior.Err? then prior
    else if Refused(prior.value, input, input.roleIds[n], ids[n]) then Err(Conflict)
    else Ok(Insert(prior.value, input, input.roleIds[n], ids[n]))
  }

  lemma BindNextMeans(t: Tables, prior: Result<Tables, AccessError>, input: BindingInput, ids: seq<Uuid>, n: nat)
    requires n < |ids| == |input.roleIds| && BindMeans(t, prior, input, ids, n)
    ensures BindMeans(t, BindNext(prior, input, ids, n), input, ids, n + 1)
  {
    AllBindableNext(t, input, ids, n);
    if prior.Ok? {
      BindOneMore(t, prior.value, input, ids, n);
    }
  }

  lemma BindAllStep(t: Tables, input: BindingInput, ids: seq<Uuid>, n: nat)
    requires n < |ids| == |input.roleIds|
    ensures BindAll(t, input, ids, n + 1) == BindNext(BindAll(t, input, ids, n), input, ids, n)
  {
  }

  lemma SameMeaning(t: Tables, r: Result<Tables, AccessError>, q: Result<Tables, AccessError>, input: BindingInput,
      ids: seq<Uuid>, n: nat)
    requires n <= |ids| == |input.roleIds| && r == q && BindMeans(t, r, input, ids, n)
    ensures BindMeans(t, q, input, ids, n)
  {
  }

  lemma {:induction false} BindAllMeans(t: Tables, input: BindingInput, ids: seq<Uuid>, n: nat)
    requires n <= |ids| == |input.roleIds|
    ensures BindMeans(t, BindAll(t, input, ids, n), input, ids, n)
  {
    if n > 0 {
      BindAllMeans(t, input, ids, n - 1);
      BindNextMeans(t, BindAll(t, input, ids, n - 1), input, ids, n - 1);
      BindAllStep(t, input, ids, n - 1);
      var next := BindNext(BindAll(t, input, ids, n - 1), input, ids, n - 1);
      SameMeaning(t, next, BindAll(t, input, ids, n), input, ids, n);
    }
  }

  /** All or nothing: the transaction commits exactly when every role is bindable, and then every row is there. */
  lemma BindAllIffAllBindable(t: Tables, input: BindingInput, ids: seq<Uuid>)
    requires |ids| == |input.roleIds|
    ensures BindAll(t, input, ids, |ids|).Ok? <==> AllBindable(t, input, ids, |ids|)
    ensures BindAll(t, input, ids, |ids|).Ok? ==> Bound(t, BindAll(t, input, ids, |ids|).value, input, ids, |ids|)
  {
    BindAllMeans(t, input, ids, |ids|);
  }
}
