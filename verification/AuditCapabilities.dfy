/** The scope roots a caller may open the audit trail at. */
module AuditCapabilities {
  import opened Basics
  import opened Lists
  import opened UuidText
  import opened Scopes
  import opened PolicyTables
  import opened PolicyDecision
  import opened AuditVisibility

  // ---------------------------------------------------------------------------------------------
  // Capabilities
  // ---------------------------------------------------------------------------------------------

  function RootRowOf(b: Binding): DenyScopeRow {
    DenyScopeRow(b.organizationId, b.projectId, b.environmentId, b.applicationId, b.scopeKind)
  }

  predicate ActiveProject(t: Tables, projectId: Uuid) {
    projectId in t.projects && t.projects[projectId].active
  }

  /** The join of the capability query. It excludes OIDC members only of viewer-only groups. */
  ghost predicate UserRoot(t: Tables, user: Uuid, m: Uuid, b: Uuid) {
    && LiveMember(t, m) && t.memberships[m].userId == user
    && b in t.bindings && t.bindings[b].active && t.bindings[b].groupId == t.memberships[m].groupId
    && LiveRole(t, t.bindings[b].roleId, VIEW)
    && ActiveProject(t, t.bindings[b].projectId)
    && (t.memberships[m].source == Manual || !t.groups[t.memberships[m].groupId].oidcViewerOnly)
  }

  ghost predicate IsRootQueryResult(t: Tables, user: Uuid, rows: seq<DenyScopeRow>) {
    && (forall r <- rows :: exists m, b :: UserRoot(t, user, m, b) && r == RootRowOf(t.bindings[b]))
    && (forall m, b :: UserRoot(t, user, m, b) ==> RootRowOf(t.bindings[b]) in rows)
  }

  ghost predicate ConsistentBindings(t: Tables) {
    forall b <- t.bindings ::
      ConsistentColumns(t.bindings[b].scopeKind, t.bindings[b].environmentId, t.bindings[b].applicationId)
  }

  ghost predicate WellFormedBindings(t: Tables) {
    forall b <- t.bindings :: WellFormedRow(RootRowOf(t.bindings[b]))
  }

  /** A row of the capability query: its columns and its presentation label. */
  datatype RootRow = RootRow(columns: DenyScopeRow, title: string)

  datatype ScopeRoot = ScopeRoot(scope: Scope, title: string)

  datatype RootList = RootList(visible: bool, roots: seq<ScopeRoot>)

  /** The rows of the capability query for one user, in the order of their labels. */
  ghost predicate IsLabelledQueryResult(t: Tables, user: Uuid, rows: seq<RootRow>) {
    IsRootQueryResult(t, user, ColumnsOf(rows))
  }

  function ColumnsOf(rows: seq<RootRow>): (columns: seq<DenyScopeRow>)
    ensures |columns| == |rows|
  {
    seq(|rows|, i requires 0 <= i < |rows| => rows[i].columns)
  }

  predicate Converts(row: RootRow, s: Scope) {
    DenyScope(row.columns) == Ok(s)
  }

  ghost predicate AllConvert(rows: seq<RootRow>) {
    forall i | 0 <= i < |rows| :: DenyScope(rows[i].columns).Ok?
  }

  /** The rows as labelled scopes. */
  function CandidateRoots(rows: seq<RootRow>): (roots: seq<ScopeRoot>)
    requires AllConvert(rows)
    ensures |roots| == |rows|
    ensures forall i | 0 <= i < |rows| :: Converts(rows[i], roots[i].scope) && roots[i].title == rows[i].title
  {
    seq(|rows|, i requires 0 <= i < |rows|
        && DenyScope(rows[i].columns).Ok? => ScopeRoot(DenyScope(rows[i].columns).value, rows[i].title))
  }

  /** The capability query returns rows that convert. */
  lemma RootRowsConvert(t: Tables, user: Uuid, rows: seq<RootRow>)
    requires WellFormedBindings(t) && IsLabelledQueryResult(t, user, rows)
    ensures ConsistentBindings(t) && AllConvert(rows)
    ensures forall i | 0 <= i < |rows| :: WellFormedRow(rows[i].columns)
  {
    var columns := ColumnsOf(rows);
    forall i | 0 <= i < |rows|
      ensures WellFormedRow(rows[i].columns) && DenyScope(rows[i].columns).Ok?
    {
      assert columns[i] in columns;
      var m, b :| UserRoot(t, user, m, b) && columns[i] == RootRowOf(t.bindings[b]);
      RowConverts(columns[i]);
    }
  }

  function AllowedRoot(rules: set<Rule>, caller: Principal): ScopeRoot -> bool {
    (root: ScopeRoot) => Allowed(rules, caller, VIEW, root.scope)
  }

  /** Converts the rows of the capability query, keeping their order, or fails on a malformed one. */
  method ListRoots(rows: seq<RootRow>) returns (r: Result<seq<ScopeRoot>, AuditError>)
    ensures if AllConvert(rows) then r == Ok(CandidateRoots(rows)) else r == Err(IncompleteDeny)
    ensures (forall i | 0 <= i < |rows| :: WellFormedRow(rows[i].columns)) ==> r.Ok?
  {
    var roots: seq<ScopeRoot> := [];
    for i := 0 to |rows|
      invariant |roots| == i
      invariant forall k | 0 <= k < i :: Converts(rows[k], roots[k].scope) && roots[k].title == rows[k].title
    {
      var scope := DenyScope(rows[i].columns);
      if scope.Err? {
        if WellFormedRow(rows[i].columns) {
          RowConverts(rows[i].columns);
        }
        return Err(scope.error);
      }
      roots := roots + [ScopeRoot(scope.value, rows[i].title)];
    }
    assert AllConvert(rows);
    assert roots == CandidateRoots(rows);
    return Ok(roots);
  }

  /** Keeps the roots the engine allows; candidate scopes are well formed, so every one is decided. */
  method KeepAllowed(rules: set<Rule>, caller: Principal, candidates: seq<ScopeRoot>)
    returns (r: Result<seq<ScopeRoot>, AuditError>)
    requires caller.userId != NIL_UUID && forall i | 0 <= i < |candidates| :: candidates[i].scope.Valid()
    ensures r == Ok(Filter(AllowedRoot(rules, caller), candidates))
  {
    var roots := [];
    for i := 0 to |candidates|
      invariant roots == Filter(AllowedRoot(rules, caller), candidates[..i])
    {
      FilterNext(AllowedRoot(rules, caller), candidates, i);
      var allowed := Authorize(rules, caller, VIEW, candidates[i].scope);
      if allowed == Ok(true) {
        roots := roots + [candidates[i]];
      }
    }
    assert candidates[..|candidates|] == candidates;
    return Ok(roots);
  }

  lemma ConvertedIsValid(row: RootRow, s: Scope)
    requires Converts(row, s)
    ensures s.Valid() && !s.kind.PlatformKind?
  {
  }

  function RootsOf(rules: set<Rule>, caller: Principal, rows: seq<RootRow>): seq<ScopeRoot>
    requires AllConvert(rows)
  {
    Filter(AllowedRoot(rules, caller), CandidateRoots(rows))
  }

  /** The platform alone for platform viewers, otherwise the candidate roots the engine allows, in order. */
  method Capabilities(rules: set<Rule>, caller: Principal, rows: seq<RootRow>) returns (r: Result<RootList, AuditError>)
    ensures caller.userId == NIL_UUID ==> r == Err(NotAuthorizable)
    ensures caller.userId != NIL_UUID && (forall i | 0 <= i < |rows| :: WellFormedRow(rows[i].columns)) ==> r.Ok?
    ensures caller.userId != NIL_UUID && Allowed(rules, caller, VIEW, PLATFORM_SCOPE) ==>
              r == Ok(RootList(true, [ScopeRoot(PLATFORM_SCOPE, "Platform")]))
    ensures caller.userId != NIL_UUID && !Allowed(rules, caller, VIEW, PLATFORM_SCOPE) ==>
              if AllConvert(rows)
              then r == Ok(RootList(RootsOf(rules, caller, rows) != [], RootsOf(rules, caller, rows)))
              else r == Err(IncompleteDeny)
  {
    var platform := Authorize(rules, caller, VIEW, PLATFORM_SCOPE);
    if platform.Err? {
      return Err(NotAuthorizable);
    }
    if platform.value {
      return Ok(RootList(true, [ScopeRoot(PLATFORM_SCOPE, "Platform")]));
    }
    var candidates := ListRoots(rows);
    if candidates.Err? {
      return Err(candidates.error);
    }
    forall i | 0 <= i < |candidates.value|
      ensures candidates.value[i].scope.Valid()
    {
      ConvertedIsValid(rows[i], candidates.value[i].scope);
    }
    var roots := KeepAllowed(rules, caller, candidates.value);
    if roots.Err? {
      return Err(NotAuthorizable);
    }
    return Ok(RootList(|roots.value| > 0, roots.value));
  }

  /** A scope among the listed roots. */
  ghost predicate IsListed(roots: seq<ScopeRoot>, s: Scope) {
    exists root :: root in roots && root.scope == s
  }

  ghost predicate IsCandidate(rows: seq<RootRow>, s: Scope) {
    exists i :: 0 <= i < |rows| && Converts(rows[i], s)
  }

  lemma ListedAreAllowedCandidates(rules: set<Rule>, caller: Principal, rows: seq<RootRow>, s: Scope)
    requires AllConvert(rows)
    ensures IsListed(RootsOf(rules, caller, rows), s) <==> Allowed(rules, caller, VIEW, s) && IsCandidate(rows, s)
  {
    var all := CandidateRoots(rows);
    FilterMembers(AllowedRoot(rules, caller), all);
    if root :| root in RootsOf(rules, caller, rows) && root.scope == s {
      var i :| 0 <= i < |all| && all[i] == root;
      assert Converts(rows[i], s);
    }
    if Allowed(rules, caller, VIEW, s) && IsCandidate(rows, s) {
      var i :| 0 <= i < |rows| && Converts(rows[i], s);
      assert all[i] in all && all[i].scope == s;
      assert AllowedRoot(rules, caller)(all[i]);
    }
  }

  /** The candidate behind an allowed scope. */
  lemma AllowedScopeHasCandidate(t: Tables, caller: Principal, rows: seq<RootRow>, scope: Scope) returns (root: Scope)
    requires ConsistentBindings(t) && IsLabelledQueryResult(t, caller.userId, rows) && AllConvert(rows)
    requires scope.Valid() && !scope.kind.PlatformKind? && ActiveProject(t, scope.projectId)
    requires Allowed(EffectivePolicy(t), caller, VIEW, scope)
    ensures IsCandidate(rows, root) && root.Contains(scope) && Allowed(EffectivePolicy(t), caller, VIEW, root)
  {
    var m, b := AllowedIsGranted(t, caller, VIEW, scope);
    var columns := ColumnsOf(rows);
    ColumnsConvert(rows);
    CoveringRootIsListed(t, caller, columns, m, b, scope);
    root := DenyScope(RootRowOf(t.bindings[b])).value;
    ColumnsAreCandidates(rows, RootRowOf(t.bindings[b]), root);
  }

  lemma ColumnsConvert(rows: seq<RootRow>)
    requires AllConvert(rows)
    ensures forall row <- ColumnsOf(rows) :: DenyScope(row).Ok?
  {
    var columns := ColumnsOf(rows);
    forall row | row in columns
      ensures DenyScope(row).Ok?
    {
      var i :| 0 <= i < |columns| && columns[i] == row;
      assert columns[i] == rows[i].columns;
    }
  }

  lemma ColumnsAreCandidates(rows: seq<RootRow>, row: DenyScopeRow, s: Scope)
    requires row in ColumnsOf(rows) && DenyScope(row) == Ok(s)
    ensures IsCandidate(rows, s)
  {
    var i :| 0 <= i < |rows| && ColumnsOf(rows)[i] == row;
    assert Converts(rows[i], s);
  }

  /**
   For a caller without platform access, a scope in an active project is viewable exactly when a root that
   Capabilities lists contains it and no live deny covers it: filtering candidates through the engine hides nothing.
   */
  lemma CapabilitiesSoundAndComplete(t: Tables, caller: Principal, rows: seq<RootRow>, scope: Scope)
    requires WellFormedBindings(t) && IsLabelledQueryResult(t, caller.userId, rows)
    requires scope.Valid() && !scope.kind.PlatformKind? && ActiveProject(t, scope.projectId)
    ensures AllConvert(rows)
    ensures Allowed(EffectivePolicy(t), caller, VIEW, scope)
            <==> && (exists root :: IsListed(RootsOf(EffectivePolicy(t), caller, rows), root) && root.Contains(scope))
                 && !DeniedAt(t, caller.userId, VIEW, scope)
  {
    RootRowsConvert(t, caller.userId, rows);
    var rules := EffectivePolicy(t);
    if Allowed(rules, caller, VIEW, scope) {
      DecisionFromTables(t, caller, VIEW, scope);
      var root := AllowedScopeHasCandidate(t, caller, rows, scope);
      ListedAreAllowedCandidates(rules, caller, rows, root);
    }
    if root :| IsListed(RootsOf(rules, caller, rows), root) && root.Contains(scope) {
      ListedAreAllowedCandidates(rules, caller, rows, root);
      AllowIsInheritedUnlessDenied(t, caller, VIEW, root, scope);
    }
  }

  lemma CoveringRootIsListed(t: Tables, caller: Principal, rows: seq<DenyScopeRow>, m: Uuid, b: Uuid, scope: Scope)
    requires ConsistentBindings(t) && IsRootQueryResult(t, caller.userId, rows)
    requires forall row <- rows :: DenyScope(row).Ok?
    requires scope.Valid() && !scope.kind.PlatformKind? && ActiveProject(t, scope.projectId)
    requires GrantCovers(t, m, b, caller.userId, VIEW, scope) && Allowed(EffectivePolicy(t), caller, VIEW, scope)
    ensures RootRowOf(t.bindings[b]) in rows
    ensures var root := DenyScope(RootRowOf(t.bindings[b]));
            root.Ok? && root.value.Contains(scope) && Allowed(EffectivePolicy(t), caller, VIEW, root.value)
  {
    PolicyPathNamesProject(t.bindings[b], scope);
    assert UserRoot(t, caller.userId, m, b);
    var root := DenyScope(RootRowOf(t.bindings[b])).value;
    RowCoversItself(t, m, b, caller.userId, root);
    RowCoverage(RootRowOf(t.bindings[b]), scope);
    AllowedIsUndenied(t, caller, VIEW, scope);
    if DeniedAt(t, caller.userId, VIEW, root) {
      DenialReachesInner(t, caller.userId, root, scope);
    }
    AllowedIsKnown(t, caller, scope);
    GrantedUnlessDenied(t, caller, VIEW, root, m, b);
  }

  lemma AllowedIsKnown(t: Tables, caller: Principal, scope: Scope)
    requires Allowed(EffectivePolicy(t), caller, VIEW, scope)
    ensures caller.userId != NIL_UUID && !caller.disabled
  {
  }

  lemma RowCoversItself(t: Tables, m: Uuid, b: Uuid, user: Uuid, root: Scope)
    requires ConsistentBindings(t) && ScopedGrant(t, m, b, VIEW) && t.memberships[m].userId == user
    requires DenyScope(RootRowOf(t.bindings[b])) == Ok(root)
    ensures root.Valid() && !root.kind.PlatformKind? && GrantCovers(t, m, b, user, VIEW, root)
  {
    RowCoverage(RootRowOf(t.bindings[b]), root);
    ContainmentIsForestOrder(root, root, root);
  }

  lemma DenialReachesInner(t: Tables, user: Uuid, root: Scope, scope: Scope)
    requires root.Valid() && scope.Valid() && root.Contains(scope) && DeniedAt(t, user, VIEW, root)
    ensures DeniedAt(t, user, VIEW, scope)
  {
    var m, d :| DenyCovers(t, m, d, user, VIEW, root);
    MatchIsInherited(DenyPath(t.denies[d]), root, scope);
    assert DenyCovers(t, m, d, user, VIEW, scope);
  }

  /** A binding path that covers a scope names the scope's own project. */
  lemma PolicyPathNamesProject(b: Binding, scope: Scope)
    requires scope.Valid() && !scope.kind.PlatformKind? && ScopeMatch(scope.Path(), BindingPath(b))
    ensures b.projectId == scope.projectId
  {
    ScopePathShape(scope);
    SqlPathShape(b.organizationId, b.projectId, b.environmentId, b.applicationId);
    assert BindingPath(b) <= BindingPath(b) + "/";
    SliceOfPrefix(BindingPath(b), scope.Path(), 61, 97);
    TextInjective(b.projectId, scope.projectId);
  }
}
