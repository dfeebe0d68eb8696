/** What the policy engine decides, in terms of the rows and columns of the authorization tables alone. */
module PolicyLaws {
  import opened Basics
  import opened UuidText
  import opened Scopes
  import opened PolicyTables
  import opened PolicyDecision
  import opened PolicyEngine
  import opened AuditVisibility
  import opened AuditCapabilities

  /** The shape of a scope a request may name. */
  ghost predicate IsScope(s: Scope) {
    match s.kind
    case PlatformKind => s.organizationId == 0 && s.projectId == 0 && s.environmentId == 0 && s.applicationId == 0
    case ProjectKind => s.organizationId != 0 && s.projectId != 0 && s.environmentId == 0 && s.applicationId == 0
    case EnvironmentKind => s.organizationId != 0 && s.projectId != 0 && s.environmentId != 0 && s.applicationId == 0
    case ApplicationKind => s.organizationId != 0 && s.projectId != 0 && s.environmentId != 0 && s.applicationId != 0
    case OtherKind(_) => false
  }

  /** The columns of a row reach a resource scope: a column that is NULL reaches everything below. */
  ghost predicate Reaches(organizationId: Uuid, projectId: Uuid, environmentId: Option<Uuid>,
                          applicationId: Option<Uuid>, s: Scope) {
    && s.kind != PlatformKind && organizationId == s.organizationId && projectId == s.projectId
    && (environmentId == None || environmentId == Some(s.environmentId))
    && (applicationId == None || applicationId == Some(s.applicationId))
  }

  /** An active membership of this enabled user in an enabled group. */
  ghost predicate IsMember(t: Tables, m: Uuid, user: Uuid) {
    && m in t.memberships && t.memberships[m].active && t.memberships[m].userId == user
    && user in t.users && !t.users[user].disabled
    && t.memberships[m].groupId in t.groups && !t.groups[t.memberships[m].groupId].disabled
  }

  /** The rows of a scoped grant. An OIDC member is granted viewing, and that in groups for viewers only. */
  ghost predicate RowsGrant(t: Tables, m: Uuid, b: Uuid, user: Uuid, act: string, s: Scope) {
    && IsMember(t, m, user)
    && b in t.bindings && t.bindings[b].active && t.bindings[b].groupId == t.memberships[m].groupId
    && t.bindings[b].roleId in t.roles && t.roles[t.bindings[b].roleId].active
    && (t.bindings[b].roleId, act) in t.rolePermissions
    && (t.memberships[m].source == Oidc ==>
          t.groups[t.memberships[m].groupId].oidcViewerOnly && act == "resource.view")
    && Reaches(t.bindings[b].organizationId, t.bindings[b].projectId, t.bindings[b].environmentId,
               t.bindings[b].applicationId, s)
  }

  /** The rows of a platform grant, which only manual members have. */
  ghost predicate RowsGrantPlatform(t: Tables, m: Uuid, b: Uuid, user: Uuid, act: string, s: Scope) {
    && IsMember(t, m, user) && t.memberships[m].source == Manual
    && b in t.platformBindings && t.platformBindings[b].active
    && t.platformBindings[b].groupId == t.memberships[m].groupId
    && t.platformBindings[b].roleId in t.roles && t.roles[t.platformBindings[b].roleId].active
    && (t.platformBindings[b].roleId, act) in t.rolePermissions
    && (s.kind == PlatformKind || act == "deployment_plan.manage" || act == "deployment_request.view")
  }

  ghost predicate RowsDeny(t: Tables, m: Uuid, d: Uuid, user: Uuid, act: string, s: Scope) {
    && IsMember(t, m, user)
    && d in t.denies && t.denies[d].active && t.denies[d].groupId == t.memberships[m].groupId
    && t.denies[d].permission == act
    && Reaches(t.denies[d].organizationId, t.denies[d].projectId, t.denies[d].environmentId,
               t.denies[d].applicationId, s)
  }

  lemma ScopesAreThese(s: Scope)
    ensures s.Valid() <==> IsScope(s)
  {
  }

  /** A well-formed row's policy rule matches a scope exactly when its columns reach it. */
  lemma RowReaches(row: DenyScopeRow, s: Scope)
    requires WellFormedRow(row) && IsScope(s)
    ensures Text(row.organizationId) == s.Tenant()
            && ScopeMatch(s.Path(),
                          SqlScopePath(row.organizationId, row.projectId, row.environmentId, row.applicationId))
            <==> Reaches(row.organizationId, row.projectId, row.environmentId, row.applicationId, s)
  {
    ScopesAreThese(s);
    RowConverts(row);
    RowCoverage(row, s);
  }

  lemma GrantIsInTheRows(t: Tables, m: Uuid, b: Uuid, user: Uuid, act: string, s: Scope)
    requires WellFormedBindings(t) && IsScope(s)
    ensures GrantCovers(t, m, b, user, act, s) <==> RowsGrant(t, m, b, user, act, s)
  {
    if b in t.bindings {
      RowReaches(RootRowOf(t.bindings[b]), s);
    }
  }

  lemma DenyIsInTheRows(t: Tables, m: Uuid, d: Uuid, user: Uuid, act: string, s: Scope)
    requires WellFormedDenies(t) && IsScope(s)
    ensures DenyCovers(t, m, d, user, act, s) <==> RowsDeny(t, m, d, user, act, s)
  {
    if d in t.denies {
      RowReaches(ScopeRowOf(t.denies[d]), s);
    }
  }

  lemma PlatformGrantIsInTheRows(t: Tables, m: Uuid, b: Uuid, user: Uuid, act: string, s: Scope)
    ensures PlatformGrantCovers(t, m, b, user, act, s) <==> RowsGrantPlatform(t, m, b, user, act, s)
  {
  }

  lemma GrantsAreInTheRows(t: Tables, user: Uuid, act: string, s: Scope)
    requires WellFormedBindings(t) && IsScope(s)
    ensures GrantedAt(t, user, act, s) <==>
            ((exists m, b :: RowsGrant(t, m, b, user, act, s))
             || exists m, b :: RowsGrantPlatform(t, m, b, user, act, s))
  {
    forall m, b
      ensures GrantCovers(t, m, b, user, act, s) <==> RowsGrant(t, m, b, user, act, s)
      ensures PlatformGrantCovers(t, m, b, user, act, s) <==> RowsGrantPlatform(t, m, b, user, act, s)
    {
      GrantIsInTheRows(t, m, b, user, act, s);
      PlatformGrantIsInTheRows(t, m, b, user, act, s);
    }
  }

  lemma DeniesAreInTheRows(t: Tables, user: Uuid, act: string, s: Scope)
    requires WellFormedDenies(t) && IsScope(s)
    ensures DeniedAt(t, user, act, s) <==> exists m, d :: RowsDeny(t, m, d, user, act, s)
  {
    forall m, d
      ensures DenyCovers(t, m, d, user, act, s) <==> RowsDeny(t, m, d, user, act, s)
    {
      DenyIsInTheRows(t, m, d, user, act, s);
    }
  }

  /** An enabled caller to whom some rows grant the permission at a proper scope while none deny it. */
  ghost predicate RowsAllow(t: Tables, caller: Principal, act: string, s: Scope) {
    && caller.userId != 0 && !caller.disabled && IsScope(s)
    && ((exists m, b :: RowsGrant(t, m, b, caller.userId, act, s))
        || exists m, b :: RowsGrantPlatform(t, m, b, caller.userId, act, s))
    && !exists m, d :: RowsDeny(t, m, d, caller.userId, act, s)
  }

  /**
   The decision in terms of rows. Flattening the tables to text rules, matching texts and the deny-override effect
   together allow exactly the requests for which some rows grant the permission there and none deny it.
   */
  lemma DecisionIsInTheRows(t: Tables, caller: Principal, act: string, s: Scope)
    requires WellFormedBindings(t) && WellFormedDenies(t)
    ensures Allowed(EffectivePolicy(t), caller, act, s) <==> RowsAllow(t, caller, act, s)
  {
    ScopesAreThese(s);
    DecisionFromTables(t, caller, act, s);
    if IsScope(s) {
      GrantsAreInTheRows(t, caller.userId, act, s);
      DeniesAreInTheRows(t, caller.userId, act, s);
    }
  }

  /** A request is malformed exactly without a user or with a scope of no such shape. */
  lemma MalformedIff(rules: set<Rule>, caller: Principal, act: string, s: Scope)
    ensures Authorize(rules, caller, act, s).Err? <==> caller.userId == 0 || !IsScope(s)
  {
    ScopesAreThese(s);
  }

  /** What the cached engine answers from rules that reflect the tables, in terms of their rows. */
  lemma ReflectingRulesDecideByRows(rules: set<Rule>, t: Tables, caller: Principal, act: string, s: Scope)
    requires WellFormedBindings(t) && WellFormedDenies(t) && Reflects(rules, t) && KnownEnabled(t, caller)
    ensures Decided(rules, caller, act, s) == Err(BadRequest) <==> caller.userId == 0 || !IsScope(s)
    ensures Decided(rules, caller, act, s) == Ok(true) <==> RowsAllow(t, caller, act, s)
    ensures Decided(rules, caller, act, s) in {Err(BadRequest), Ok(true), Ok(false)}
  {
    ReflectingRulesDecide(rules, t, caller, act, s);
    DecisionIsInTheRows(t, caller, act, s);
    MalformedIff(EffectivePolicy(t), caller, act, s);
  }

  /** The rows of the capability query: an active binding of a viewing role, in an active project, for a live member. */
  lemma RootRowsMean(t: Tables, user: Uuid, m: Uuid, b: Uuid)
    ensures UserRoot(t, user, m, b) <==>
            && IsMember(t, m, user)
            && (t.memberships[m].source == Manual || !t.groups[t.memberships[m].groupId].oidcViewerOnly)
            && b in t.bindings && t.bindings[b].active && t.bindings[b].groupId == t.memberships[m].groupId
            && t.bindings[b].roleId in t.roles && t.roles[t.bindings[b].roleId].active
            && (t.bindings[b].roleId, "audit.view") in t.rolePermissions
            && t.bindings[b].projectId in t.projects && t.projects[t.bindings[b].projectId].active
  {
  }

  /** The rows of the deny query: an active deny of viewing, for a live member. */
  lemma DenyRowsMean(t: Tables, user: Uuid, m: Uuid, d: Uuid)
    ensures UserDeny(t, user, m, d) <==>
            && IsMember(t, m, user)
            && d in t.denies && t.denies[d].active && t.denies[d].groupId == t.memberships[m].groupId
            && t.denies[d].permission == "audit.view"
  {
  }

  /** Every listed audit root lies in an active project, and some rows grant viewing there. */
  lemma ListedRootsAreGranted(t: Tables, caller: Principal, rows: seq<RootRow>, root: Scope)
    requires WellFormedBindings(t) && WellFormedDenies(t) && IsLabelledQueryResult(t, caller.userId, rows)
    requires AllConvert(rows) && IsListed(RootsOf(EffectivePolicy(t), caller, rows), root)
    ensures root.projectId in t.projects && t.projects[root.projectId].active
    ensures caller.userId != 0 && !caller.disabled && IsScope(root) && root.kind != PlatformKind
    ensures !exists m, d :: RowsDeny(t, m, d, caller.userId, "audit.view", root)
  {
    ListedAreAllowedCandidates(EffectivePolicy(t), caller, rows, root);
    DecisionIsInTheRows(t, caller, VIEW, root);
    CandidateIsInActiveProject(t, caller.userId, rows, root);
  }

  lemma CandidateIsInActiveProject(t: Tables, user: Uuid, rows: seq<RootRow>, root: Scope)
    requires WellFormedBindings(t) && IsLabelledQueryResult(t, user, rows) && IsCandidate(rows, root)
    ensures root.projectId in t.projects && t.projects[root.projectId].active && root.kind != PlatformKind
  {
    var i :| 0 <= i < |rows| && Converts(rows[i], root);
    var columns := ColumnsOf(rows);
    assert columns[i] in columns;
    var m, b :| UserRoot(t, user, m, b) && columns[i] == RootRowOf(t.bindings[b]);
    RowConverts(columns[i]);
  }
}
