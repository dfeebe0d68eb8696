/**
 The normalized authorization tables and the flattened policy derived from them.
 A table is a map from row identifier to row. A column that SQL declares NULL is an Option; a
 `disabled_at` column is the Boolean "has been disabled".
 */
module PolicyTables {
  import opened Basics
  import opened UuidText
  import opened Scopes

  datatype MembershipSource = Manual | Oidc

  datatype OwnerKind = PlatformOwned | OrganizationOwned | ProjectOwned

  datatype User = User(username: string, disabled: bool)

  datatype Group = Group(
    ownerKind: OwnerKind, ownerId: Option<Uuid>, name: string, systemKey: Option<string>,
    oidcViewerOnly: bool, disabled: bool)

  datatype Role = Role(
    ownerKind: OwnerKind, ownerId: Option<Uuid>, name: string, systemKey: Option<string>, active: bool)

  datatype Membership = Membership(
    groupId: Uuid, userId: Uuid, source: MembershipSource, issuer: Option<string>, active: bool)

  datatype Binding = Binding(
    groupId: Uuid, roleId: Uuid, organizationId: Uuid, scopeKind: ScopeKind, projectId: Uuid,
    environmentId: Option<Uuid>, applicationId: Option<Uuid>, active: bool)

  datatype PlatformBinding = PlatformBinding(groupId: Uuid, roleId: Uuid, active: bool)

  datatype Deny = Deny(
    groupId: Uuid, permission: string, organizationId: Uuid, scopeKind: ScopeKind, projectId: Uuid,
    environmentId: Option<Uuid>, applicationId: Option<Uuid>, active: bool)

  datatype Project = Project(organizationId: Uuid, active: bool)

  datatype Tables = Tables(
    users: map<Uuid, User>,
    groups: map<Uuid, Group>,
    roles: map<Uuid, Role>,
    rolePermissions: set<(Uuid, string)>,
    memberships: map<Uuid, Membership>,
    bindings: map<Uuid, Binding>,
    platformBindings: map<Uuid, PlatformBinding>,
    denies: map<Uuid, Deny>,
    projects: map<Uuid, Project>)

  datatype Effect = AllowEffect | DenyEffect

  /** One row of the policy model: subject, tenant, object, action, effect. */
  datatype Rule = Rule(sub: string, tenant: string, obj: string, act: string, eft: Effect)

  /** The table constraint that ties a row's scope kind to the columns that are set. */
  predicate ConsistentColumns(kind: ScopeKind, environmentId: Option<Uuid>, applicationId: Option<Uuid>) {
    || (kind.ProjectKind? && environmentId.None? && applicationId.None?)
    || (kind.EnvironmentKind? && environmentId.Some? && applicationId.None?)
    || (kind.ApplicationKind? && environmentId.Some? && applicationId.Some?)
  }

  /** The join every rule starts from: an active membership of an enabled user in an enabled group. */
  predicate LiveMember(t: Tables, m: Uuid) {
    && m in t.memberships && t.memberships[m].active
    && t.memberships[m].groupId in t.groups && !t.groups[t.memberships[m].groupId].disabled
    && t.memberships[m].userId in t.users && !t.users[t.memberships[m].userId].disabled
  }

  predicate LiveRole(t: Tables, role: Uuid, permission: string) {
    role in t.roles && t.roles[role].active && (role, permission) in t.rolePermissions
  }

  predicate PlatformGrant(t: Tables, m: Uuid, b: Uuid, permission: string) {
    && LiveMember(t, m) && t.memberships[m].source == Manual
    && b in t.platformBindings && t.platformBindings[b].active
    && t.platformBindings[b].groupId == t.memberships[m].groupId
    && LiveRole(t, t.platformBindings[b].roleId, permission)
  }

  predicate ScopedGrant(t: Tables, m: Uuid, b: Uuid, permission: string) {
    && LiveMember(t, m)
    && b in t.bindings && t.bindings[b].active && t.bindings[b].groupId == t.memberships[m].groupId
    && LiveRole(t, t.bindings[b].roleId, permission)
    && (t.memberships[m].source == Manual
        || (t.groups[t.memberships[m].groupId].oidcViewerOnly && permission == "resource.view"))
  }

  predicate DenyGrant(t: Tables, m: Uuid, d: Uuid) {
    LiveMember(t, m) && d in t.denies && t.denies[d].active && t.denies[d].groupId == t.memberships[m].groupId
  }

  function BindingPath(b: Binding): string {
    SqlScopePath(b.organizationId, b.projectId, b.environmentId, b.applicationId)
  }

  function DenyPath(d: Deny): string {
    SqlScopePath(d.organizationId, d.projectId, d.environmentId, d.applicationId)
  }

  function PlatformRule(t: Tables, m: Uuid, permission: string): Rule
    requires m in t.memberships
  {
    Rule(Text(t.memberships[m].userId), "platform", "/platform", permission, AllowEffect)
  }

  function AllowRule(t: Tables, m: Uuid, b: Uuid, permission: string): Rule
    requires m in t.memberships && b in t.bindings
  {
    Rule(Text(t.memberships[m].userId), Text(t.bindings[b].organizationId), BindingPath(t.bindings[b]), permission,
        AllowEffect)
  }

  function DenyRule(t: Tables, m: Uuid, d: Uuid): Rule
    requires m in t.memberships && d in t.denies
  {
    Rule(Text(t.memberships[m].userId), Text(t.denies[d].organizationId), DenyPath(t.denies[d]), t.denies[d].permission,
        DenyEffect)
  }

  function PlatformAllowRules(t: Tables): set<Rule> {
    set m, b, rp | m in t.memberships && b in t.platformBindings && rp in t.rolePermissions
                   && PlatformGrant(t, m, b, rp.1) && rp.0 == t.platformBindings[b].roleId
                   :: PlatformRule(t, m, rp.1)
  }

  function AllowRules(t: Tables): set<Rule> {
    set m, b, rp | m in t.memberships && b in t.bindings && rp in t.rolePermissions
                   && ScopedGrant(t, m, b, rp.1) && rp.0 == t.bindings[b].roleId
                   :: AllowRule(t, m, b, rp.1)
  }

  function DenyRules(t: Tables): set<Rule> {
    set m, d | m in t.memberships && d in t.denies && DenyGrant(t, m, d) :: DenyRule(t, m, d)
  }

  /** The result of the policy query: the union of platform allows, scoped allows and scoped denies. */
  function EffectivePolicy(t: Tables): set<Rule> {
    PlatformAllowRules(t) + AllowRules(t) + DenyRules(t)
  }

  lemma PlatformRuleLoaded(t: Tables, m: Uuid, b: Uuid, permission: string)
    requires PlatformGrant(t, m, b, permission)
    ensures PlatformRule(t, m, permission) in EffectivePolicy(t)
  {
    var rp := (t.platformBindings[b].roleId, permission);
    assert rp in t.rolePermissions && PlatformGrant(t, m, b, rp.1);
  }

  lemma AllowRuleLoaded(t: Tables, m: Uuid, b: Uuid, permission: string)
    requires ScopedGrant(t, m, b, permission)
    ensures AllowRule(t, m, b, permission) in EffectivePolicy(t)
  {
    var rp := (t.bindings[b].roleId, permission);
    assert rp in t.rolePermissions && ScopedGrant(t, m, b, rp.1);
  }

  lemma DenyRuleLoaded(t: Tables, m: Uuid, d: Uuid)
    requires DenyGrant(t, m, d)
    ensures DenyRule(t, m, d) in EffectivePolicy(t)
  {
  }

  /** Where a loaded rule comes from: its membership row and its binding or deny row. */
  ghost predicate Origin(t: Tables, rule: Rule, m: Uuid, row: Uuid) {
    && m in t.memberships
    && match rule.eft
       case DenyEffect => DenyGrant(t, m, row) && rule == DenyRule(t, m, row)
       case AllowEffect =>
         || (PlatformGrant(t, m, row, rule.act) && rule == PlatformRule(t, m, rule.act))
         || (ScopedGrant(t, m, row, rule.act) && rule == AllowRule(t, m, row, rule.act))
  }

  lemma RuleOrigin(t: Tables, rule: Rule) returns (m: Uuid, row: Uuid)
    requires rule in EffectivePolicy(t)
    ensures Origin(t, rule, m, row)
  {
    if rule in DenyRules(t) {
      m, row :| m in t.memberships && row in t.denies && DenyGrant(t, m, row) && rule == DenyRule(t, m, row);
    } else if rule in PlatformAllowRules(t) {
      m, row := PlatformRuleOrigin(t, rule);
    } else {
      m, row := AllowRuleOrigin(t, rule);
    }
  }

  lemma PlatformRuleOrigin(t: Tables, rule: Rule) returns (m: Uuid, row: Uuid)
    requires rule in PlatformAllowRules(t)
    ensures rule.eft.AllowEffect? && PlatformGrant(t, m, row, rule.act) && rule == PlatformRule(t, m, rule.act)
  {
    var rp;
    m, row, rp :| m in t.memberships && row in t.platformBindings && rp in t.rolePermissions
                  && PlatformGrant(t, m, row, rp.1) && rp.0 == t.platformBindings[row].roleId
                  && rule == PlatformRule(t, m, rp.1);
  }

  lemma AllowRuleOrigin(t: Tables, rule: Rule) returns (m: Uuid, row: Uuid)
    requires rule in AllowRules(t)
    ensures rule.eft.AllowEffect? && ScopedGrant(t, m, row, rule.act) && rule == AllowRule(t, m, row, rule.act)
  {
    var rp;
    m, row, rp :| m in t.memberships && row in t.bindings && rp in t.rolePermissions
                  && ScopedGrant(t, m, row, rp.1) && rp.0 == t.bindings[row].roleId
                  && rule == AllowRule(t, m, row, rp.1);
  }
}
