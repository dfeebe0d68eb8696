/** Opening one audit event, and how that agrees with listing. */
module AuditService {
  import opened Basics
  import opened Scopes
  import opened PolicyTables
  import opened PolicyDecision
  import opened Sql
  import opened AuditVisibility
  import opened AuditCapabilities
  import opened Metadata

  /** Who may open an event: platform viewers open anything, others what the engine allows at its scope. */
  predicate MayOpen(rules: set<Rule>, caller: Principal, e: EventRow) {
    || Allowed(rules, caller, VIEW, PLATFORM_SCOPE)
    || (&& AuthorizationScope(e).Some?
        && !AuthorizationScope(e).value.kind.PlatformKind?
        && Allowed(rules, caller, VIEW, AuthorizationScope(e).value))
  }

  datatype EventDetail = EventDetail(summary: EventSummary, metadata: map<string, Json>, truncated: bool)

  /**
   Opens one event with its sanitized metadata. The final read applies the SQL visibility predicate again; the
   contract says it never hides an event that the authorization before it let through, and shows nothing else.
   */
  method Detail(ghost t: Tables, rules: set<Rule>, denyRows: seq<DenyScopeRow>, events: map<Uuid, EventRow>,
                fold: Folding, json: Metadata.Text, caller: Principal, eventId: Uuid)
    returns (r: Result<EventDetail, AuditError>)
    requires rules == EffectivePolicy(t) && WellFormedDenies(t) && IsDenyQueryResult(t, caller.userId, denyRows)
    requires forall id <- events :: DownwardComplete(events[id])
    ensures r.Ok? <==> eventId != NIL_UUID && eventId in events && MayOpen(rules, caller, events[eventId])
    ensures r.Err? ==> r.error == if eventId != NIL_UUID && eventId in events && caller.userId == NIL_UUID
                                  then NotAuthorizable
                                  else AuditError.NotFound
    ensures r.Ok? ==> && r.value.summary == Summary(events[eventId])
                      && Sanitizes(fold, json, events[eventId].metadata, r.value.metadata, r.value.truncated)
  {
    if eventId == NIL_UUID || eventId !in events {
      return Err(NotFound);
    }
    var event := events[eventId];
    var platform := Authorize(rules, caller, VIEW, PLATFORM_SCOPE);
    if platform.Err? {
      return Err(NotAuthorizable);
    }
    var target := PLATFORM_SCOPE;
    if !platform.value {
      var scope := AuthorizationScope(event);
      if scope.None? || scope.value.kind.PlatformKind? {
        return Err(NotFound);
      }
      target := scope.value;
      var allowed := Authorize(rules, caller, VIEW, target);
      if allowed != Ok(true) {
        return Err(NotFound);
      }
    }
    var visibility := Resolve(target, denyRows);
    if visibility.Err? {
      return Err(IncompleteDeny);
    }
    var where := VisibilityPredicates(visibility.value);
    if !target.kind.PlatformKind? {
      SqlAgreesWithEngine(t, caller, denyRows, visibility.value, event);
      ContainmentIsForestOrder(target, target, target);
    }
    if where.Err? || !Keeps(where.value, event) {
      return Err(NotFound);
    }
    var metadata, truncated := SanitizeMetadata(fold, json, event.metadata);
    return Ok(EventDetail(Summary(event), metadata, truncated));
  }

  /**
   Listing against opening, for every caller. Under a root the caller may view, a page query keeps an event exactly
   when the caller may open it, it lies under the root, and no live deny of the caller covers it. The last condition
   matters only to callers with platform access, whom opening spares their denies.
   */
  lemma ListedExactlyWhenOpenable(t: Tables, caller: Principal, rows: seq<DenyScopeRow>, v: VisibilityConstraint,
      e: EventRow)
    requires WellFormedDenies(t) && IsDenyQueryResult(t, caller.userId, rows) && IsResolution(v.root, rows, v)
    requires v.root.Valid() && DownwardComplete(e)
    requires Allowed(EffectivePolicy(t), caller, VIEW, v.root)
    ensures VisibilityConditions(v).Ok?
    ensures Keeps(VisibilityConditions(v).value, e)
            <==> && MayOpen(EffectivePolicy(t), caller, e)
                 && (v.root.kind.PlatformKind?
                     || (&& AuthorizationScope(e).Some? && v.root.Contains(AuthorizationScope(e).value)
                         && !DeniedAt(t, caller.userId, VIEW, AuthorizationScope(e).value)))
    ensures !Allowed(EffectivePolicy(t), caller, VIEW, PLATFORM_SCOPE) ==>
              (Keeps(VisibilityConditions(v).value, e)
               <==> && MayOpen(EffectivePolicy(t), caller, e) && AuthorizationScope(e).Some?
                    && v.root.Contains(AuthorizationScope(e).value))
  {
    if !v.root.kind.PlatformKind? {
      SqlAgreesWithEngine(t, caller, rows, v, e);
      if AuthorizationScope(e).Some? {
        OpensUnderRoot(t, caller, v.root, e, AuthorizationScope(e).value);
      }
    }
  }

  /** An event under an authorized root opens for platform viewers always, for others unless it is denied. */
  lemma OpensUnderRoot(t: Tables, caller: Principal, root: Scope, e: EventRow, target: Scope)
    requires AuthorizationScope(e) == Some(target) && root.Valid() && !root.kind.PlatformKind?
    requires Allowed(EffectivePolicy(t), caller, VIEW, root)
    ensures root.Contains(target) ==>
              && (Allowed(EffectivePolicy(t), caller, VIEW, target) <==> !DeniedAt(t, caller.userId, VIEW, target))
              && (MayOpen(EffectivePolicy(t), caller, e) <==>
                  (Allowed(EffectivePolicy(t), caller, VIEW, PLATFORM_SCOPE)
                   || Allowed(EffectivePolicy(t), caller, VIEW, target)))
  {
    if root.Contains(target) {
      ContainedIsValid(root, e, target);
      AllowIsInheritedUnlessDenied(t, caller, VIEW, root, target);
      OpensAtOwnScope(EffectivePolicy(t), caller, e, target);
    }
  }

  lemma ContainedIsValid(root: Scope, e: EventRow, target: Scope)
    requires AuthorizationScope(e) == Some(target) && root.Valid() && !root.kind.PlatformKind? && root.Contains(target)
    ensures target.Valid() && !target.kind.PlatformKind?
  {
  }

  lemma OpensAtOwnScope(rules: set<Rule>, caller: Principal, e: EventRow, target: Scope)
    requires AuthorizationScope(e) == Some(target) && !target.kind.PlatformKind?
    ensures MayOpen(rules, caller, e) <==>
            (Allowed(rules, caller, VIEW, PLATFORM_SCOPE) || Allowed(rules, caller, VIEW, target))
  {
  }

  // ---------------------------------------------------------------------------------------------
  // A platform viewer whose narrower list hides an event that opens
  // ---------------------------------------------------------------------------------------------

  /** User 1 views the platform and project 11 of organization 10, and is denied its environment 12. */
  const DENIED_VIEWER: Tables := Tables(
    map[1 := User("auditor", false)],
    map[2 := Group(PlatformOwned, None, "auditors", None, false, false)],
    map[3 := Role(PlatformOwned, None, "auditor", None, true)],
    {(3, VIEW)},
    map[4 := Membership(2, 1, Manual, None, true)],
    map[5 := Binding(2, 3, 10, ProjectKind, 11, None, None, true)],
    map[6 := PlatformBinding(2, 3, true)],
    map[7 := Deny(2, VIEW, 10, EnvironmentKind, 11, Some(12), None, true)],
    map[11 := Project(10, true)])

  const DENIED_EVENT: EventRow :=
    EventRow(20, 100, None, None, Some(10), Some(11), Some(12), None, Resolved, "action", "type", "id", "", "{}")

  const VIEWED_PROJECT: Scope := Scope(10, 11, NIL_UUID, NIL_UUID, ProjectKind)
  const DENIED_ENVIRONMENT: Scope := Scope(10, 11, 12, NIL_UUID, EnvironmentKind)

  /** A granted binding reaches a scope exactly when the scope of its row contains it; the same for a deny. */
  lemma RowsReachByContainment(t: Tables, m: Uuid, b: Uuid, d: Uuid, user: Uuid, root: Scope, scope: Scope)
    requires scope.Valid()
    ensures ScopedGrant(t, m, b, VIEW) && t.memberships[m].userId == user && IsRowOf(RootRowOf(t.bindings[b]), root) ==>
              (GrantCovers(t, m, b, user, VIEW, scope) <==> root.Contains(scope))
    ensures DenyGrant(t, m, d) && t.memberships[m].userId == user && t.denies[d].permission == VIEW
            && IsRowOf(ScopeRowOf(t.denies[d]), root) ==>
              (DenyCovers(t, m, d, user, VIEW, scope) <==> root.Contains(scope))
  {
    if ScopedGrant(t, m, b, VIEW) && IsRowOf(RootRowOf(t.bindings[b]), root) {
      RowCoverage(RootRowOf(t.bindings[b]), scope);
    }
    if DenyGrant(t, m, d) && IsRowOf(ScopeRowOf(t.denies[d]), root) {
      RowCoverage(ScopeRowOf(t.denies[d]), scope);
    }
  }

  predicate IsRowOf(row: DenyScopeRow, s: Scope) {
    ConsistentColumns(row.scopeKind, row.environmentId, row.applicationId) && DenyScope(row) == Ok(s)
  }

  lemma DeniedViewerRows()
    ensures PlatformGrant(DENIED_VIEWER, 4, 6, VIEW) && ScopedGrant(DENIED_VIEWER, 4, 5, VIEW)
            && DenyGrant(DENIED_VIEWER, 4, 7)
    ensures IsRowOf(RootRowOf(DENIED_VIEWER.bindings[5]), VIEWED_PROJECT)
    ensures IsRowOf(ScopeRowOf(DENIED_VIEWER.denies[7]), DENIED_ENVIRONMENT)
    ensures WellFormedDenies(DENIED_VIEWER)
  {
  }

  lemma DeniedViewerScopes()
    ensures VIEWED_PROJECT.Valid() && DENIED_ENVIRONMENT.Valid() && PLATFORM_SCOPE.Valid()
    ensures VIEWED_PROJECT.Contains(DENIED_ENVIRONMENT) && VIEWED_PROJECT.Contains(VIEWED_PROJECT)
    ensures DENIED_ENVIRONMENT.Contains(DENIED_ENVIRONMENT)
    ensures !DENIED_ENVIRONMENT.Contains(VIEWED_PROJECT) && !DENIED_ENVIRONMENT.Contains(PLATFORM_SCOPE)
    ensures DownwardComplete(DENIED_EVENT) && AuthorizationScope(DENIED_EVENT) == Some(DENIED_ENVIRONMENT)
  {
  }

  lemma DeniedViewerHasOneDeny(m: Uuid, d: Uuid)
    requires DenyGrant(DENIED_VIEWER, m, d)
    ensures m == 4 && d == 7
  {
  }

  lemma DeniedViewerReach(scope: Scope)
    requires scope == VIEWED_PROJECT || scope == PLATFORM_SCOPE || scope == DENIED_ENVIRONMENT
    ensures DenyCovers(DENIED_VIEWER, 4, 7, 1, VIEW, scope) <==> scope == DENIED_ENVIRONMENT
  {
    DeniedViewerRows();
    DeniedViewerScopes();
    RowsReachByContainment(DENIED_VIEWER, 4, 5, 7, 1, DENIED_ENVIRONMENT, scope);
  }

  lemma DeniedViewerDeniedExactly(scope: Scope)
    requires scope == VIEWED_PROJECT || scope == PLATFORM_SCOPE || scope == DENIED_ENVIRONMENT
    ensures DeniedAt(DENIED_VIEWER, 1, VIEW, scope) <==> scope == DENIED_ENVIRONMENT
  {
    DeniedViewerReach(scope);
    forall m, d | DenyCovers(DENIED_VIEWER, m, d, 1, VIEW, scope)
      ensures m == 4 && d == 7
    {
      DeniedViewerHasOneDeny(m, d);
    }
  }

  lemma DeniedViewerMayView(scope: Scope)
    requires scope == VIEWED_PROJECT || scope == PLATFORM_SCOPE
    ensures Allowed(EffectivePolicy(DENIED_VIEWER), Principal(1, false), VIEW, scope)
  {
    DeniedViewerRows();
    DeniedViewerScopes();
    DeniedViewerDeniedExactly(scope);
    RowsReachByContainment(DENIED_VIEWER, 4, 5, 7, 1, VIEWED_PROJECT, scope);
    DecisionFromTables(DENIED_VIEWER, Principal(1, false), VIEW, scope);
    if scope == PLATFORM_SCOPE {
      assert PlatformGrantCovers(DENIED_VIEWER, 4, 6, 1, VIEW, scope);
    } else {
      assert GrantCovers(DENIED_VIEWER, 4, 5, 1, VIEW, scope);
    }
  }

  /** The event opens, the project lists, and the project's list does not show the event. */
  lemma NarrowListHidesOpenable(rows: seq<DenyScopeRow>, v: VisibilityConstraint)
    requires IsDenyQueryResult(DENIED_VIEWER, 1, rows) && IsResolution(VIEWED_PROJECT, rows, v)
    ensures Allowed(EffectivePolicy(DENIED_VIEWER), Principal(1, false), VIEW, VIEWED_PROJECT)
    ensures MayOpen(EffectivePolicy(DENIED_VIEWER), Principal(1, false), DENIED_EVENT)
    ensures AuthorizationScope(DENIED_EVENT) == Some(DENIED_ENVIRONMENT) && VIEWED_PROJECT.Contains(DENIED_ENVIRONMENT)
    ensures VisibilityConditions(v).Ok? && !Keeps(VisibilityConditions(v).value, DENIED_EVENT)
  {
    DeniedViewerMayView(VIEWED_PROJECT);
    DeniedViewerMayView(PLATFORM_SCOPE);
    DeniedViewerScopes();
    DeniedViewerRows();
    DeniedViewerDeniedExactly(DENIED_ENVIRONMENT);
    ListedExactlyWhenOpenable(DENIED_VIEWER, Principal(1, false), rows, v, DENIED_EVENT);
  }
}
