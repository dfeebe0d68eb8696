/**
 Who may see an audit event: the SQL projection (root clauses and explicit denies) against the
 decision of the policy engine at the event's own scope.
 */
module AuditVisibility {
  import opened Basics
  import opened UuidText
  import opened Scopes
  import opened PolicyTables
  import opened PolicyDecision
  import opened Sql

  const VIEW: string := "audit.view"

  datatype AuditError = InvalidFilter | IncompleteDeny | NotAuthorizable | Forbidden | NotFound

  datatype VisibilityConstraint = VisibilityConstraint(root: Scope, denied: seq<Scope>)

  datatype DenyScopeRow = DenyScopeRow(
    organizationId: Uuid, projectId: Uuid, environmentId: Option<Uuid>, applicationId: Option<Uuid>,
    scopeKind: ScopeKind)

  // ---------------------------------------------------------------------------------------------
  // The scope of an event
  // ---------------------------------------------------------------------------------------------

  function ScopeOrNone(r: Result<Scope, ScopeError>): Option<Scope> {
    if r.Ok? then Some(r.value) else None
  }

  /** The most specific trustworthy scope of a stored event. */
  function AuthorizationScope(e: EventRow): Option<Scope> {
    if e.resolution != Resolved then None
    else if e.applicationId.Some? && e.environmentId.Some? && e.projectId.Some? && e.organizationId.Some? then
      ScopeOrNone(NewApplicationScope(e.organizationId.value, e.projectId.value, e.environmentId.value,
          e.applicationId.value))
    else if e.environmentId.Some? && e.projectId.Some? && e.organizationId.Some? then
      ScopeOrNone(NewEnvironmentScope(e.organizationId.value, e.projectId.value, e.environmentId.value))
    else if e.projectId.Some? && e.organizationId.Some? then
      ScopeOrNone(NewProjectScope(e.organizationId.value, e.projectId.value))
    else Some(PLATFORM_SCOPE)
  }

  /** The table constraint on stored ancestry, and no column holds the zero UUID. */
  predicate DownwardComplete(e: EventRow) {
    && (e.applicationId.Some? ==> e.environmentId.Some?)
    && (e.environmentId.Some? ==> e.projectId.Some?)
    && (e.projectId.Some? ==> e.organizationId.Some?)
    && e.organizationId != Some(NIL_UUID) && e.projectId != Some(NIL_UUID)
    && e.environmentId != Some(NIL_UUID) && e.applicationId != Some(NIL_UUID)
  }

  // ---------------------------------------------------------------------------------------------
  // Visibility as SQL
  // ---------------------------------------------------------------------------------------------

  function RootConditions(root: Scope): Result<seq<Condition>, AuditError> {
    var o := ColumnEquals(OrganizationColumn, root.organizationId);
    var p := ColumnEquals(ProjectColumn, root.projectId);
    var e := ColumnEquals(EnvironmentColumn, root.environmentId);
    var a := ColumnEquals(ApplicationColumn, root.applicationId);
    match root.kind
    case PlatformKind => Ok([Always])
    case ProjectKind => Ok([Always, ResolutionIsResolved, o, p])
    case EnvironmentKind => Ok([Always, ResolutionIsResolved, o, p, e])
    case ApplicationKind => Ok([Always, ResolutionIsResolved, o, p, e, a])
    case _ => Err(InvalidFilter)
  }

  function DeniedCondition(s: Scope): Result<Condition, AuditError> {
    var project := And(ColumnEquals(OrganizationColumn, s.organizationId), ColumnEquals(ProjectColumn, s.projectId));
    var environment := And(project, ColumnIsNotDistinctFrom(EnvironmentColumn, s.environmentId));
    match s.kind
    case ProjectKind => Ok(project)
    case EnvironmentKind => Ok(environment)
    case ApplicationKind => Ok(And(environment, ColumnIsNotDistinctFrom(ApplicationColumn, s.applicationId)))
    case _ => Err(InvalidFilter)
  }

  /** The condition list a visibility constraint stands for: the root, then one negated clause a deny. */
  function DeniedConditions(denied: seq<Scope>): Result<seq<Condition>, AuditError> {
    if denied == [] then Ok([])
    else
      var init := DeniedConditions(denied[..|denied| - 1]);
      if init.Err? then init
      else
        var last := DeniedCondition(denied[|denied| - 1]);
        if last.Err? then Err(last.error) else Ok(init.value + [Not(last.value)])
  }

  function VisibilityConditions(v: VisibilityConstraint): Result<seq<Condition>, AuditError> {
    var root := RootConditions(v.root);
    if root.Err? || v.root.kind.PlatformKind? then root
    else
      var denied := DeniedConditions(v.denied);
      if denied.Err? then denied else Ok(root.value + denied.value)
  }

  /** Appends the root clauses and then one clause per deny, stopping at the first scope SQL cannot express. */
  method VisibilityPredicates(v: VisibilityConstraint) returns (r: Result<seq<Condition>, AuditError>)
    ensures r == VisibilityConditions(v)
  {
    var root := RootConditions(v.root);
    if root.Err? {
      return root;
    }
    var where := root.value;
    if v.root.kind.PlatformKind? {
      return Ok(where);
    }
    var i := 0;
    while i < |v.denied|
      invariant 0 <= i <= |v.denied|
      invariant DeniedConditions(v.denied[..i]).Ok? && where == root.value + DeniedConditions(v.denied[..i]).value
    {
      assert v.denied[..i + 1][..i] == v.denied[..i];
      var clause := DeniedCondition(v.denied[i]);
      if clause.Err? {
        DeniedPrefixFails(v.denied, i + 1);
        return Err(clause.error);
      }
      where := where + [Not(clause.value)];
      i := i + 1;
    }
    assert v.denied[..i] == v.denied;
    return Ok(where);
  }

  lemma {:induction false} DeniedPrefixFails(denied: seq<Scope>, n: nat)
    requires n <= |denied| && DeniedConditions(denied[..n]).Err?
    ensures DeniedConditions(denied) == DeniedConditions(denied[..n])
    decreases |denied| - n
  {
    if n == |denied| {
      assert denied[..n] == denied;
    } else {
      assert denied[..n + 1][..n] == denied[..n];
      DeniedPrefixFails(denied, n + 1);
    }
  }

  // ---------------------------------------------------------------------------------------------
  // Resolving the denies of a user
  // ---------------------------------------------------------------------------------------------

  function DenyScope(row: DenyScopeRow): Result<Scope, AuditError> {
    var built :=
      match row.scopeKind
      case ProjectKind => NewProjectScope(row.organizationId, row.projectId)
      case EnvironmentKind =>
        if row.environmentId.None? then Err(ScopeError("incomplete"))
        else NewEnvironmentScope(row.organizationId, row.projectId, row.environmentId.value)
      case ApplicationKind =>
        if row.environmentId.None? || row.applicationId.None? then Err(ScopeError("incomplete"))
        else NewApplicationScope(row.organizationId, row.projectId, row.environmentId.value, row.applicationId.value)
      case _ => Err(ScopeError("invalid kind"));
    if built.Ok? then Ok(built.value) else Err(IncompleteDeny)
  }

  function ScopeRowOf(d: Deny): DenyScopeRow {
    DenyScopeRow(d.organizationId, d.projectId, d.environmentId, d.applicationId, d.scopeKind)
  }

  /** The columns that are set go with the kind of the row, and none holds the zero UUID. */
  predicate WellFormedRow(row: DenyScopeRow) {
    && ConsistentColumns(row.scopeKind, row.environmentId, row.applicationId)
    && row.organizationId != NIL_UUID && row.projectId != NIL_UUID
    && row.environmentId != Some(NIL_UUID) && row.applicationId != Some(NIL_UUID)
  }

  /** A well-formed row stands for the valid scope whose kind, identifiers and nullable columns are the row's. */
  lemma RowConverts(row: DenyScopeRow)
    requires WellFormedRow(row)
    ensures DenyScope(row).Ok?
    ensures var s := DenyScope(row).value;
            && s.Valid() && s.kind == row.scopeKind
            && s.organizationId == row.organizationId && s.projectId == row.projectId
            && Scopes.EnvironmentColumn(s) == row.environmentId && Scopes.ApplicationColumn(s) == row.applicationId
  {
  }

  /** Exactly the rows that lack an identifier their kind needs, or have no resource kind, are refused. */
  lemma RowIsRefusedIff(row: DenyScopeRow)
    ensures DenyScope(row).Err? <==>
            || row.organizationId == NIL_UUID || row.projectId == NIL_UUID
            || (row.scopeKind == EnvironmentKind && row.environmentId in {None, Some(NIL_UUID)})
            || (row.scopeKind == ApplicationKind
                && (row.environmentId in {None, Some(NIL_UUID)} || row.applicationId in {None, Some(NIL_UUID)}))
            || row.scopeKind !in {ProjectKind, EnvironmentKind, ApplicationKind}
    ensures DenyScope(row).Err? ==> DenyScope(row) == Err(IncompleteDeny)
  {
  }

  /** The rows of the deny query for one user, in whatever order the database returns them. */
  ghost predicate IsDenyQueryResult(t: Tables, user: Uuid, rows: seq<DenyScopeRow>) {
    && (forall r <- rows :: exists m, d :: UserDeny(t, user, m, d) && r == ScopeRowOf(t.denies[d]))
    && (forall m, d :: UserDeny(t, user, m, d) ==> ScopeRowOf(t.denies[d]) in rows)
  }

  ghost predicate UserDeny(t: Tables, user: Uuid, m: Uuid, d: Uuid) {
    DenyGrant(t, m, d) && t.memberships[m].userId == user && t.denies[d].permission == VIEW
  }

  ghost predicate ConsistentDenies(t: Tables) {
    forall d <- t.denies ::
      ConsistentColumns(t.denies[d].scopeKind, t.denies[d].environmentId, t.denies[d].applicationId)
  }

  ghost predicate WellFormedDenies(t: Tables) {
    forall d <- t.denies :: WellFormedRow(ScopeRowOf(t.denies[d]))
  }

  /** The deny query returns rows that convert. */
  lemma DenyRowsConvert(t: Tables, user: Uuid, rows: seq<DenyScopeRow>)
    requires WellFormedDenies(t) && IsDenyQueryResult(t, user, rows)
    ensures ConsistentDenies(t) && forall row <- rows :: WellFormedRow(row) && DenyScope(row).Ok?
  {
    forall row | row in rows
      ensures WellFormedRow(row) && DenyScope(row).Ok?
    {
      var m, d :| UserDeny(t, user, m, d) && row == ScopeRowOf(t.denies[d]);
      RowConverts(row);
    }
  }

  /** What a resolved constraint is: every row converts, and exactly the scopes under the root are kept. */
  ghost predicate IsResolution(root: Scope, rows: seq<DenyScopeRow>, v: VisibilityConstraint) {
    && v.root == root
    && (!root.kind.PlatformKind? ==>
          && (forall r <- rows :: DenyScope(r).Ok?)
          && (forall r <- rows :: root.Contains(DenyScope(r).value) ==> DenyScope(r).value in v.denied)
          && (forall s <- v.denied :: exists r :: r in rows && DenyScope(r) == Ok(s) && root.Contains(s)))
  }

  /** Projects the live denies of one user under an already authorized root. */
  method Resolve(root: Scope, rows: seq<DenyScopeRow>) returns (r: Result<VisibilityConstraint, AuditError>)
    ensures r.Ok? ==> IsResolution(root, rows, r.value)
    ensures r.Err? <==> !root.kind.PlatformKind? && exists row :: row in rows && DenyScope(row).Err?
    ensures r.Err? ==> r == Err(IncompleteDeny)
    ensures (forall row <- rows :: WellFormedRow(row)) ==> r.Ok?
  {
    var v := VisibilityConstraint(root, []);
    if root.kind.PlatformKind? {
      return Ok(v);
    }
    for i := 0 to |rows|
      invariant v.root == root
      invariant forall row <- rows[..i] :: DenyScope(row).Ok?
      invariant forall row <- rows[..i] :: root.Contains(DenyScope(row).value) ==> DenyScope(row).value in v.denied
      invariant forall s <- v.denied :: exists row :: row in rows && DenyScope(row) == Ok(s) && root.Contains(s)
    {
      var scope := DenyScope(rows[i]);
      if scope.Err? {
        assert rows[i] in rows;
        if WellFormedRow(rows[i]) {
          RowConverts(rows[i]);
        }
        return Err(scope.error);
      }
      if root.Contains(scope.value) {
        v := v.(denied := v.denied + [scope.value]);
      }
      assert rows[..i + 1] == rows[..i] + [rows[i]];
    }
    assert rows[..|rows|] == rows;
    return Ok(v);
  }

  // ---------------------------------------------------------------------------------------------
  // SQL agrees with the engine
  // ---------------------------------------------------------------------------------------------

  /** The root clauses keep exactly the resolved events whose scope lies under the root. */
  lemma RootKeepsScopesUnderRoot(root: Scope, e: EventRow)
    requires root.Valid() && !root.kind.PlatformKind? && DownwardComplete(e)
    ensures RootConditions(root).Ok?
    ensures Keeps(RootConditions(root).value, e)
            <==> AuthorizationScope(e).Some? && root.Contains(AuthorizationScope(e).value)
  {
    var where := RootConditions(root).value;
    var o := ColumnEquals(OrganizationColumn, root.organizationId);
    var p := ColumnEquals(ProjectColumn, root.projectId);
    assert where[1] == ResolutionIsResolved && where[2] == o && where[3] == p;
    assert Keeps(where, e) ==> Eval(where[1], e).True? && Eval(where[2], e).True? && Eval(where[3], e).True?;
    if !root.kind.ProjectKind? {
      assert Keeps(where, e) ==> Eval(where[4], e).True?;
      if root.kind.ApplicationKind? {
        assert Keeps(where, e) ==> Eval(where[5], e).True?;
      }
    }
  }

  /** A deny clause is never unknown on an event under a root, and says whether the deny covers the event. */
  lemma DeniedClauseIsContainment(s: Scope, e: EventRow)
    requires s.Valid() && !s.kind.PlatformKind? && DownwardComplete(e)
    requires AuthorizationScope(e).Some? && !AuthorizationScope(e).value.kind.PlatformKind?
    ensures DeniedCondition(s).Ok?
    ensures Eval(Not(DeniedCondition(s).value), e).True? <==> !s.Contains(AuthorizationScope(e).value)
  {
    var target := AuthorizationScope(e).value;
    var project := And(ColumnEquals(OrganizationColumn, s.organizationId), ColumnEquals(ProjectColumn, s.projectId));
    var environment := And(project, ColumnIsNotDistinctFrom(EnvironmentColumn, s.environmentId));
    assert Eval(project, e) == OfBool(s.organizationId == target.organizationId && s.projectId == target.projectId);
    assert s.kind.ProjectKind? || Eval(environment, e)
           == OfBool(Eval(project, e).True? && e.environmentId == Some(s.environmentId));
    var clause := DeniedCondition(s).value;
    assert Eval(clause, e) == OfBool(s.Contains(target));
  }

  lemma {:induction false} DeniedConditionsKeep(denied: seq<Scope>, e: EventRow)
    requires forall s <- denied :: s.Valid() && !s.kind.PlatformKind?
    requires DownwardComplete(e) && AuthorizationScope(e).Some? && !AuthorizationScope(e).value.kind.PlatformKind?
    ensures DeniedConditions(denied).Ok?
    ensures Keeps(DeniedConditions(denied).value, e) <==> NoneContains(denied, AuthorizationScope(e).value)
  {
    if denied != [] {
      var n := |denied| - 1;
      DeniedConditionsKeep(denied[..n], e);
      LastClause(denied, n, e);
      NoneContainsNext(denied, n, AuthorizationScope(e).value);
    }
  }

  ghost predicate NoneContains(denied: seq<Scope>, target: Scope) {
    forall s <- denied :: !s.Contains(target)
  }

  lemma NoneContainsNext(denied: seq<Scope>, n: nat, target: Scope)
    requires |denied| == n + 1
    ensures NoneContains(denied, target) <==> NoneContains(denied[..n], target) && !denied[n].Contains(target)
  {
    assert denied == denied[..n] + [denied[n]];
  }

  /** The clause of the last deny keeps the event exactly when the deny does not contain its scope. */
  lemma LastClause(denied: seq<Scope>, n: nat, e: EventRow)
    requires |denied| == n + 1 && denied[n].Valid() && !denied[n].kind.PlatformKind?
    requires DownwardComplete(e) && AuthorizationScope(e).Some? && !AuthorizationScope(e).value.kind.PlatformKind?
    requires DeniedConditions(denied[..n]).Ok?
    ensures DeniedConditions(denied).Ok?
    ensures Keeps(DeniedConditions(denied).value, e)
            <==> Keeps(DeniedConditions(denied[..n]).value, e) && !denied[n].Contains(AuthorizationScope(e).value)
  {
    DeniedClauseIsContainment(denied[n], e);
    var last := [Not(DeniedCondition(denied[n]).value)];
    assert Keeps(last, e) <==> Eval(last[0], e).True?;
    KeepsAppend(DeniedConditions(denied[..n]).value, last, e);
  }

  lemma KeepsAppend(a: seq<Condition>, b: seq<Condition>, e: EventRow)
    ensures Keeps(a + b, e) <==> Keeps(a, e) && Keeps(b, e)
  {
    if Keeps(a + b, e) {
      forall i | 0 <= i < |a| ensures Eval(a[i], e).True? { assert (a + b)[i] == a[i]; }
      forall i | 0 <= i < |b| ensures Eval(b[i], e).True? { assert (a + b)[|a| + i] == b[i]; }
    }
  }

  /** A converted row covers a scope structurally exactly when its policy rule covers it by tenant and path. */
  lemma RowCoverage(row: DenyScopeRow, target: Scope)
    requires ConsistentColumns(row.scopeKind, row.environmentId, row.applicationId) && DenyScope(row).Ok?
             && target.Valid()
    ensures var s := DenyScope(row).value;
            && s.Valid() && !s.kind.PlatformKind?
            && (s.Contains(target)
                <==> && Text(row.organizationId) == target.Tenant()
                     && ScopeMatch(target.Path(), SqlScopePath(row.organizationId, row.projectId,
                                                               row.environmentId, row.applicationId)))
  {
    var s := DenyScope(row).value;
    PathIsSqlPath(s);
    MatchIffContains(s, target);
  }

  /**
   A deny that covers an event under an authorized root was kept: the deny and the root both cover the event, so
   one contains the other, and a deny over the root would have denied the root.
   */
  lemma CoveringDenyIsKept(t: Tables, caller: Principal, rows: seq<DenyScopeRow>, v: VisibilityConstraint,
      target: Scope, m: Uuid, d: Uuid)
    requires ConsistentDenies(t) && IsDenyQueryResult(t, caller.userId, rows) && IsResolution(v.root, rows, v)
    requires v.root.Valid() && !v.root.kind.PlatformKind? && target.Valid() && v.root.Contains(target)
    requires Allowed(EffectivePolicy(t), caller, VIEW, v.root)
    requires DenyCovers(t, m, d, caller.userId, VIEW, target)
    ensures exists s :: s in v.denied && s.Contains(target)
  {
    AllowedIsUndenied(t, caller, VIEW, v.root);
    assert UserDeny(t, caller.userId, m, d);
    var row := ScopeRowOf(t.denies[d]);
    assert row in rows;
    var s := DenyScope(row).value;
    RowCoverage(row, target);
    RowCoverage(row, v.root);
    ContainmentIsForestOrder(s, v.root, target);
    assert !DenyCovers(t, m, d, caller.userId, VIEW, v.root);
    assert s in v.denied;
  }

  /** The denies kept by a resolution cover an event under an authorized root exactly when the engine denies it. */
  lemma ResolvedDeniesAreComplete(t: Tables, caller: Principal, rows: seq<DenyScopeRow>, v: VisibilityConstraint,
      target: Scope)
    requires ConsistentDenies(t) && IsDenyQueryResult(t, caller.userId, rows) && IsResolution(v.root, rows, v)
    requires v.root.Valid() && !v.root.kind.PlatformKind? && target.Valid() && v.root.Contains(target)
    requires Allowed(EffectivePolicy(t), caller, VIEW, v.root)
    ensures DeniedAt(t, caller.userId, VIEW, target) <==> exists s :: s in v.denied && s.Contains(target)
  {
    if m, d :| DenyCovers(t, m, d, caller.userId, VIEW, target) {
      CoveringDenyIsKept(t, caller, rows, v, target, m, d);
    }
    if s :| s in v.denied && s.Contains(target) {
      KeptScopeDenies(t, caller, rows, v, target, s);
    }
  }

  lemma KeptScopeDenies(t: Tables, caller: Principal, rows: seq<DenyScopeRow>, v: VisibilityConstraint, target: Scope,
      s: Scope)
    requires ConsistentDenies(t) && IsDenyQueryResult(t, caller.userId, rows) && IsResolution(v.root, rows, v)
    requires !v.root.kind.PlatformKind? && target.Valid() && s in v.denied && s.Contains(target)
    ensures DeniedAt(t, caller.userId, VIEW, target)
  {
    var row :| row in rows && DenyScope(row) == Ok(s);
    var m, d :| UserDeny(t, caller.userId, m, d) && row == ScopeRowOf(t.denies[d]);
    RowCoverage(row, target);
    assert DenyCovers(t, m, d, caller.userId, VIEW, target);
  }

  /**
   Main theorem. For any policy tables and any root the caller may view, the SQL predicate keeps an event
   exactly when the event is resolved, lies under the root, and the engine allows the caller to view it
   at the event's own scope.
   */
  lemma SqlAgreesWithEngine(t: Tables, caller: Principal, rows: seq<DenyScopeRow>, v: VisibilityConstraint, e: EventRow)
    requires ConsistentDenies(t) && IsDenyQueryResult(t, caller.userId, rows) && IsResolution(v.root, rows, v)
    requires v.root.Valid() && !v.root.kind.PlatformKind? && DownwardComplete(e)
    requires Allowed(EffectivePolicy(t), caller, VIEW, v.root)
    ensures VisibilityConditions(v).Ok?
    ensures Keeps(VisibilityConditions(v).value, e)
            <==> && AuthorizationScope(e).Some?
                 && v.root.Contains(AuthorizationScope(e).value)
                 && Allowed(EffectivePolicy(t), caller, VIEW, AuthorizationScope(e).value)
  {
    DeniedScopesAreValid(t, caller.userId, rows, v);
    KeepsUnderRootUndenied(v, e);
    if AuthorizationScope(e).Some? && v.root.Contains(AuthorizationScope(e).value) {
      AuthorizationScopeIsValid(e, v.root);
      AllowedUnlessListed(t, caller, rows, v, AuthorizationScope(e).value);
    }
  }

  lemma AuthorizationScopeIsValid(e: EventRow, root: Scope)
    requires AuthorizationScope(e).Some? && root.Valid() && !root.kind.PlatformKind?
    requires root.Contains(AuthorizationScope(e).value)
    ensures AuthorizationScope(e).value.Valid()
  {
  }

  /** Under an authorized root the engine allows exactly the scopes that no kept deny contains. */
  lemma AllowedUnlessListed(t: Tables, caller: Principal, rows: seq<DenyScopeRow>, v: VisibilityConstraint,
      target: Scope)
    requires ConsistentDenies(t) && IsDenyQueryResult(t, caller.userId, rows) && IsResolution(v.root, rows, v)
    requires v.root.Valid() && !v.root.kind.PlatformKind? && target.Valid() && v.root.Contains(target)
    requires Allowed(EffectivePolicy(t), caller, VIEW, v.root)
    ensures Allowed(EffectivePolicy(t), caller, VIEW, target) <==> !exists s :: s in v.denied && s.Contains(target)
  {
    ResolvedDeniesAreComplete(t, caller, rows, v, target);
    AllowIsInheritedUnlessDenied(t, caller, VIEW, v.root, target);
  }

  /** The projected clauses keep an event exactly when it lies under the root and no listed deny contains it. */
  lemma KeepsUnderRootUndenied(v: VisibilityConstraint, e: EventRow)
    requires v.root.Valid() && !v.root.kind.PlatformKind? && DownwardComplete(e)
    requires forall s <- v.denied :: s.Valid() && !s.kind.PlatformKind?
    ensures VisibilityConditions(v).Ok?
    ensures Keeps(VisibilityConditions(v).value, e)
            <==> && AuthorizationScope(e).Some?
                 && v.root.Contains(AuthorizationScope(e).value)
                 && !exists s :: s in v.denied && s.Contains(AuthorizationScope(e).value)
  {
    RootKeepsScopesUnderRoot(v.root, e);
    DeniedConditionsOk(v.denied);
    KeepsAppend(RootConditions(v.root).value, DeniedConditions(v.denied).value, e);
    if AuthorizationScope(e).Some? && v.root.Contains(AuthorizationScope(e).value) {
      DeniedConditionsKeep(v.denied, e);
    }
  }

  lemma DeniedScopesAreValid(t: Tables, user: Uuid, rows: seq<DenyScopeRow>, v: VisibilityConstraint)
    requires IsResolution(v.root, rows, v) && !v.root.kind.PlatformKind?
    ensures forall s <- v.denied :: s.Valid() && !s.kind.PlatformKind?
  {
    forall s | s in v.denied
      ensures s.Valid() && !s.kind.PlatformKind?
    {
      var row :| row in rows && DenyScope(row) == Ok(s);
    }
  }

  lemma {:induction false} DeniedConditionsOk(denied: seq<Scope>)
    requires forall s <- denied :: s.Valid() && !s.kind.PlatformKind?
    ensures DeniedConditions(denied).Ok?
  {
    if denied != [] {
      DeniedConditionsOk(denied[..|denied| - 1]);
    }
  }
}
