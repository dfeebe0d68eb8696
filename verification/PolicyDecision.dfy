/** The policy decision: matcher, deny-override effect and request validation. */
module PolicyDecision {
  import opened Basics
  import opened UuidText
  import opened Scopes
  import opened PolicyTables

  datatype Request = Request(sub: string, tenant: string, obj: string, act: string)

  predicate PlatformWide(act: string) {
    act == "deployment_plan.manage" || act == "deployment_request.view"
  }

  predicate Matches(r: Request, p: Rule) {
    && r.sub == p.sub
    && r.act == p.act
    && ((PlatformWide(r.act) && p.tenant == "platform" && p.obj == "/platform")
        || (r.tenant == p.tenant && ScopeMatch(r.obj, p.obj)))
  }

  /** Some rule allows and no rule denies. */
  predicate Enforce(rules: set<Rule>, r: Request) {
    && (exists p :: p in rules && p.eft.AllowEffect? && Matches(r, p))
    && !(exists p :: p in rules && p.eft.DenyEffect? && Matches(r, p))
  }

  function RequestFor(user: Uuid, act: string, scope: Scope): Request {
    Request(Text(user), scope.Tenant(), scope.Path(), act)
  }

  /** An authenticated caller: the session's user and whether the account is locally disabled. */
  datatype Principal = Principal(userId: Uuid, disabled: bool)

  datatype AuthorizationError = InvalidRequest

  /** Evaluates the loaded policy: malformed requests are errors, disabled callers are refused. */
  function Authorize(rules: set<Rule>, caller: Principal, act: string, scope: Scope): Result<bool, AuthorizationError> {
    if caller.userId == NIL_UUID || !scope.Valid() then Err(InvalidRequest)
    else if caller.disabled then Ok(false)
    else Ok(Enforce(rules, RequestFor(caller.userId, act, scope)))
  }

  predicate Allowed(rules: set<Rule>, caller: Principal, act: string, scope: Scope) {
    Authorize(rules, caller, act, scope) == Ok(true)
  }

  ghost predicate DenyCovers(t: Tables, m: Uuid, d: Uuid, user: Uuid, act: string, scope: Scope) {
    && DenyGrant(t, m, d) && t.memberships[m].userId == user && t.denies[d].permission == act
    && Text(t.denies[d].organizationId) == scope.Tenant() && ScopeMatch(scope.Path(), DenyPath(t.denies[d]))
  }

  ghost predicate GrantCovers(t: Tables, m: Uuid, b: Uuid, user: Uuid, act: string, scope: Scope) {
    && ScopedGrant(t, m, b, act) && t.memberships[m].userId == user
    && Text(t.bindings[b].organizationId) == scope.Tenant() && ScopeMatch(scope.Path(), BindingPath(t.bindings[b]))
  }

  /** A platform rule reaches the platform scope, and every scope for the two platform-wide permissions. */
  ghost predicate PlatformGrantCovers(t: Tables, m: Uuid, b: Uuid, user: Uuid, act: string, scope: Scope) {
    PlatformGrant(t, m, b, act) && t.memberships[m].userId == user && (scope.kind.PlatformKind? || PlatformWide(act))
  }

  /** A live deny row of this user for this permission whose scope covers the target. */
  ghost predicate DeniedAt(t: Tables, user: Uuid, act: string, scope: Scope) {
    exists m, d :: DenyCovers(t, m, d, user, act, scope)
  }

  /** A live grant of this user for this permission whose rule covers the target. */
  ghost predicate GrantedAt(t: Tables, user: Uuid, act: string, scope: Scope) {
    || (exists m, b :: PlatformGrantCovers(t, m, b, user, act, scope))
    || (exists m, b :: GrantCovers(t, m, b, user, act, scope))
  }

  lemma PlatformRuleCoversPlatformOnly(scope: Scope)
    requires scope.Valid()
    ensures scope.Tenant() == "platform" && ScopeMatch(scope.Path(), "/platform") <==> scope.kind.PlatformKind?
  {
    if !scope.kind.PlatformKind? {
      PlatformPathApart(scope);
    }
  }

  lemma DenyMatchIsDeniedAt(t: Tables, user: Uuid, act: string, scope: Scope)
    ensures (exists p :: p in EffectivePolicy(t) && p.eft.DenyEffect? && Matches(RequestFor(user, act, scope), p))
            <==> DeniedAt(t, user, act, scope)
  {
    var r := RequestFor(user, act, scope);
    if p :| p in EffectivePolicy(t) && p.eft.DenyEffect? && Matches(r, p) {
      var m, d := RuleOrigin(t, p);
      TextInjective(t.memberships[m].userId, user);
      assert DenyCovers(t, m, d, user, act, scope);
    }
    if DeniedAt(t, user, act, scope) {
      var m, d :| DenyCovers(t, m, d, user, act, scope);
      DenyRuleLoaded(t, m, d);
      assert Matches(r, DenyRule(t, m, d));
    }
  }

  lemma AllowMatchIsGrantedAt(t: Tables, user: Uuid, act: string, scope: Scope)
    requires scope.Valid()
    ensures (exists p :: p in EffectivePolicy(t) && p.eft.AllowEffect? && Matches(RequestFor(user, act, scope), p))
            <==> GrantedAt(t, user, act, scope)
  {
    if p :| p in EffectivePolicy(t) && p.eft.AllowEffect? && Matches(RequestFor(user, act, scope), p) {
      MatchingAllowGrants(t, user, act, scope, p);
    }
    if GrantedAt(t, user, act, scope) {
      var p := GrantIsMatched(t, user, act, scope);
    }
  }

  lemma GrantIsMatched(t: Tables, user: Uuid, act: string, scope: Scope) returns (p: Rule)
    requires scope.Valid() && GrantedAt(t, user, act, scope)
    ensures p in EffectivePolicy(t) && p.eft.AllowEffect? && Matches(RequestFor(user, act, scope), p)
  {
    if m, b :| PlatformGrantCovers(t, m, b, user, act, scope) {
      PlatformGrantMatches(t, user, act, scope, m, b);
      p := PlatformRule(t, m, act);
    } else {
      var m, b :| GrantCovers(t, m, b, user, act, scope);
      BindingGrantMatches(t, user, act, scope, m, b);
      p := AllowRule(t, m, b, act);
    }
  }

  lemma BindingGrantMatches(t: Tables, user: Uuid, act: string, scope: Scope, m: Uuid, b: Uuid)
    requires GrantCovers(t, m, b, user, act, scope)
    ensures AllowRule(t, m, b, act) in EffectivePolicy(t) && AllowRule(t, m, b, act).eft.AllowEffect?
    ensures Matches(RequestFor(user, act, scope), AllowRule(t, m, b, act))
  {
    AllowRuleLoaded(t, m, b, act);
  }

  lemma PlatformGrantMatches(t: Tables, user: Uuid, act: string, scope: Scope, m: Uuid, b: Uuid)
    requires scope.Valid() && PlatformGrantCovers(t, m, b, user, act, scope)
    ensures PlatformRule(t, m, act) in EffectivePolicy(t) && PlatformRule(t, m, act).eft.AllowEffect?
    ensures Matches(RequestFor(user, act, scope), PlatformRule(t, m, act))
  {
    PlatformRuleLoaded(t, m, b, act);
    PlatformRuleCoversPlatformOnly(scope);
  }

  lemma MatchingAllowGrants(t: Tables, user: Uuid, act: string, scope: Scope, p: Rule)
    requires scope.Valid()
    requires p in EffectivePolicy(t) && p.eft.AllowEffect? && Matches(RequestFor(user, act, scope), p)
    ensures GrantedAt(t, user, act, scope)
  {
    PlatformRuleCoversPlatformOnly(scope);
    var m, b := RuleOrigin(t, p);
    TextInjective(t.memberships[m].userId, user);
    if PlatformGrant(t, m, b, act) && p == PlatformRule(t, m, act) {
      assert PlatformGrantCovers(t, m, b, user, act, scope);
    } else {
      assert GrantCovers(t, m, b, user, act, scope);
    }
  }

  /** The decision over the flattened policy is the decision over the tables. */
  lemma DecisionFromTables(t: Tables, caller: Principal, act: string, scope: Scope)
    ensures Allowed(EffectivePolicy(t), caller, act, scope)
            <==> caller.userId != NIL_UUID && scope.Valid() && !caller.disabled
                 && GrantedAt(t, caller.userId, act, scope) && !DeniedAt(t, caller.userId, act, scope)
  {
    DenyMatchIsDeniedAt(t, caller.userId, act, scope);
    if scope.Valid() {
      AllowMatchIsGrantedAt(t, caller.userId, act, scope);
    }
  }

  lemma AllowedIsUndenied(t: Tables, caller: Principal, act: string, scope: Scope)
    requires Allowed(EffectivePolicy(t), caller, act, scope)
    ensures !DeniedAt(t, caller.userId, act, scope)
  {
    DecisionFromTables(t, caller, act, scope);
  }

  /** The binding behind a decision below the platform. */
  lemma AllowedIsGranted(t: Tables, caller: Principal, act: string, scope: Scope) returns (m: Uuid, b: Uuid)
    requires Allowed(EffectivePolicy(t), caller, act, scope) && !scope.kind.PlatformKind? && !PlatformWide(act)
    ensures GrantCovers(t, m, b, caller.userId, act, scope)
  {
    DecisionFromTables(t, caller, act, scope);
    m, b :| GrantCovers(t, m, b, caller.userId, act, scope);
  }

  lemma GrantedUnlessDenied(t: Tables, caller: Principal, act: string, scope: Scope, m: Uuid, b: Uuid)
    requires caller.userId != NIL_UUID && scope.Valid() && !caller.disabled
    requires GrantCovers(t, m, b, caller.userId, act, scope) && !DeniedAt(t, caller.userId, act, scope)
    ensures Allowed(EffectivePolicy(t), caller, act, scope)
  {
    DecisionFromTables(t, caller, act, scope);
  }

  /** Allowed at a scope means allowed at every scope inside it that no deny covers. */
  lemma AllowIsInheritedUnlessDenied(t: Tables, caller: Principal, act: string, root: Scope, inner: Scope)
    requires inner.Valid() && root.Contains(inner)
    requires Allowed(EffectivePolicy(t), caller, act, root)
    ensures Allowed(EffectivePolicy(t), caller, act, inner) <==> !DeniedAt(t, caller.userId, act, inner)
  {
    DecisionFromTables(t, caller, act, root);
    DecisionFromTables(t, caller, act, inner);
    if m, b :| GrantCovers(t, m, b, caller.userId, act, root) {
      MatchIsInherited(BindingPath(t.bindings[b]), root, inner);
      assert GrantCovers(t, m, b, caller.userId, act, inner);
    } else {
      var m, b :| PlatformGrantCovers(t, m, b, caller.userId, act, root);
      assert PlatformGrantCovers(t, m, b, caller.userId, act, inner);
    }
  }
}
