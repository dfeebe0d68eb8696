/**
 Authorization scopes: construction, containment, the canonical object path and the path matcher.
 The theorems tie the three views of "this policy covers that resource" together: the structural
 test, the path-prefix test of the policy model, and the path that SQL assembles from nullable columns.
 */
module Scopes {
  import opened Basics
  import opened UuidText

  datatype ScopeKind =
    | PlatformKind
    | ProjectKind
    | EnvironmentKind
    | ApplicationKind
    | OtherKind(name: string)

  datatype ScopeError = ScopeError(message: string)

  datatype Scope = Scope(
    organizationId: Uuid,
    projectId: Uuid,
    environmentId: Uuid,
    applicationId: Uuid,
    kind: ScopeKind)
  {
    /** Whether this policy scope includes the target resource. */
    predicate Contains(target: Scope) {
      if kind.PlatformKind? then
        target.kind.PlatformKind?
      else if organizationId != target.organizationId || projectId != target.projectId then
        false
      else
        match kind
        case ProjectKind => true
        case EnvironmentKind => environmentId == target.environmentId
        case ApplicationKind => environmentId == target.environmentId && applicationId == target.applicationId
        case _ => false
    }

    function Parts(): seq<string> {
      ["organizations", Text(organizationId), "projects", Text(projectId)]
      + (if kind.EnvironmentKind? || kind.ApplicationKind? then ["environments", Text(environmentId)] else [])
      + (if kind.ApplicationKind? then ["applications", Text(applicationId)] else [])
    }

    /** The canonical object path of the policy model. */
    function Path(): string {
      if kind.PlatformKind? then "/platform" else "/" + Join(Parts(), "/")
    }

    /** The tenant key of the policy model. */
    function Tenant(): string {
      if kind.PlatformKind? then "platform" else Text(organizationId)
    }

    predicate Valid() {
      NewScope(kind, organizationId, projectId, environmentId, applicationId).Ok?
    }
  }

  const PLATFORM_SCOPE := Scope(NIL_UUID, NIL_UUID, NIL_UUID, NIL_UUID, PlatformKind)

  function NewScope(kind: ScopeKind, organizationId: Uuid, projectId: Uuid, environmentId: Uuid, applicationId: Uuid)
    : (r: Result<Scope, ScopeError>)
    ensures r.Ok? ==> r.value == Scope(organizationId, projectId, environmentId, applicationId, kind)
  {
    if kind.PlatformKind? then
      if organizationId != NIL_UUID || projectId != NIL_UUID || environmentId != NIL_UUID
          || applicationId != NIL_UUID then
        Err(ScopeError("platform scope cannot contain resource IDs"))
      else
        Ok(PLATFORM_SCOPE)
    else if organizationId == NIL_UUID || projectId == NIL_UUID then
      Err(ScopeError("organization and project IDs are required"))
    else
      match kind
      case ProjectKind =>
        if environmentId != NIL_UUID || applicationId != NIL_UUID
        then Err(ScopeError("project scope cannot contain descendant IDs"))
        else Ok(Scope(organizationId, projectId, environmentId, applicationId, kind))
      case EnvironmentKind =>
        if environmentId == NIL_UUID || applicationId != NIL_UUID
        then Err(ScopeError("environment scope requires an environment ID only"))
        else Ok(Scope(organizationId, projectId, environmentId, applicationId, kind))
      case ApplicationKind =>
        if environmentId == NIL_UUID || applicationId == NIL_UUID
        then Err(ScopeError("application scope requires environment and application IDs"))
        else Ok(Scope(organizationId, projectId, environmentId, applicationId, kind))
      case _ => Err(ScopeError("unsupported scope kind"))
  }

  function NewProjectScope(organizationId: Uuid, projectId: Uuid): Result<Scope, ScopeError> {
    NewScope(ProjectKind, organizationId, projectId, NIL_UUID, NIL_UUID)
  }

  function NewEnvironmentScope(organizationId: Uuid, projectId: Uuid, environmentId: Uuid): Result<Scope, ScopeError> {
    NewScope(EnvironmentKind, organizationId, projectId, environmentId, NIL_UUID)
  }

  function NewApplicationScope(organizationId: Uuid, projectId: Uuid, environmentId: Uuid, applicationId: Uuid)
    : Result<Scope, ScopeError>
  {
    NewScope(ApplicationKind, organizationId, projectId, environmentId, applicationId)
  }

  function Join(parts: seq<string>, separator: string): string {
    if |parts| == 0 then ""
    else if |parts| == 1 then parts[0]
    else parts[0] + separator + Join(parts[1..], separator)
  }

  /** The matcher function registered with the policy engine. */
  predicate ScopeMatch(resource: string, policy: string) {
    && resource != ""
    && policy != ""
    && (resource == policy || policy + "/" <= resource)
  }

  /** Texts match when they are equal, or the policy is the beginning of the resource up to a slash. */
  lemma ScopeMatchMeans(resource: string, policy: string)
    ensures ScopeMatch(resource, policy) <==>
            && policy != "" && |policy| <= |resource| && resource[..|policy|] == policy
            && (|policy| < |resource| ==> resource[|policy|] == '/')
  {
    if |policy| < |resource| {
      assert (policy + "/")[..|policy|] == policy && (policy + "/")[|policy|] == '/';
      assert resource[..|policy| + 1] == resource[..|policy|] + [resource[|policy|]];
    }
  }

  /** The path SQL concatenates from the columns of a binding or deny row; a NULL column adds nothing. */
  function SqlScopePath(organizationId: Uuid, projectId: Uuid, environmentId: Option<Uuid>,
      applicationId: Option<Uuid>): string {
    "/organizations/" + Text(organizationId) + "/projects/" + Text(projectId)
    + (if environmentId.None? then "" else "/environments/" + Text(environmentId.value))
    + (if applicationId.None? then "" else "/applications/" + Text(applicationId.value))
  }

  // ---------------------------------------------------------------------------------------------
  // Paths as fixed-width text
  // ---------------------------------------------------------------------------------------------

  /** The two nullable columns that stand for a scope of this kind. */
  function EnvironmentColumn(s: Scope): Option<Uuid> {
    if s.kind.EnvironmentKind? || s.kind.ApplicationKind? then Some(s.environmentId) else None
  }

  function ApplicationColumn(s: Scope): Option<Uuid> {
    if s.kind.ApplicationKind? then Some(s.applicationId) else None
  }

  lemma JoinFour(a: string, b: string, c: string, d: string, rest: seq<string>)
    ensures Join([a, b, c, d] + rest, "/")
         == a + "/" + b + "/" + c + "/" + d + (if rest == [] then "" else "/" + Join(rest, "/"))
  {
    var parts := [a, b, c, d] + rest;
    assert parts == [a] + ([b, c, d] + rest) && [b, c, d] + rest == [b] + ([c, d] + rest);
    assert [c, d] + rest == [c] + ([d] + rest);
    JoinFirst(a, [b, c, d] + rest);
    JoinFirst(b, [c, d] + rest);
    JoinFirst(c, [d] + rest);
    JoinFirst(d, rest);
    Flatten(a, b, c, d, if rest == [] then "" else "/" + Join(rest, "/"));
  }

  lemma JoinFirst(first: string, rest: seq<string>)
    ensures Join([first] + rest, "/") == first + (if rest == [] then "" else "/" + Join(rest, "/"))
  {
    assert ([first] + rest)[1..] == rest;
  }

  lemma Flatten(a: string, b: string, c: string, d: string, tail: string)
    ensures a + ("/" + (b + ("/" + (c + ("/" + (d + tail)))))) == a + "/" + b + "/" + c + "/" + d + tail
  {
  }

  lemma JoinTwo(a: string, b: string)
    ensures Join([a, b], "/") == a + "/" + b
  {
    assert [a, b][1..] == [b];
  }

  lemma JoinHead(o: string, p: string, rest: seq<string>)
    ensures "/" + Join(["organizations", o, "projects", p] + rest, "/")
         == "/organizations/" + o + "/projects/" + p + (if rest == [] then "" else "/" + Join(rest, "/"))
  {
    JoinFour("organizations", o, "projects", p, rest);
    assert "/" + "organizations" + "/" == "/organizations/" && "/" + "projects" + "/" == "/projects/";
    Regroup("/", "organizations", o, "projects", p, if rest == [] then "" else "/" + Join(rest, "/"));
  }

  lemma Regroup(slash: string, first: string, o: string, second: string, p: string, tail: string)
    ensures slash + (first + slash + o + slash + second + slash + p + tail)
         == (slash + first + slash) + o + (slash + second + slash) + p + tail
  {
    assert slash + (first + slash + o + slash + second + slash + p + tail)
        == (slash + first + slash) + o + (slash + second + slash) + p + tail;
  }

  lemma JoinEnvironment(e: string)
    ensures "/" + Join(["environments", e], "/") == "/environments/" + e
  {
    JoinTwo("environments", e);
    assert "/" + "environments" + "/" == "/environments/";
    assert "/" + ("environments" + "/" + e) == "/" + "environments" + "/" + e;
  }

  lemma JoinApplication(e: string, a: string)
    ensures "/" + Join(["environments", e, "applications", a], "/") == "/environments/" + e + "/applications/" + a
  {
    JoinFour("environments", e, "applications", a, []);
    assert ["environments", e, "applications", a] + [] == ["environments", e, "applications", a];
    assert "/" + "environments" + "/" == "/environments/" && "/" + "applications" + "/" == "/applications/";
    calc {
      "/" + ("environments" + "/" + e + "/" + "applications" + "/" + a);
      "/" + "environments" + "/" + e + ("/" + "applications" + "/") + a;
    }
  }

  /** The path a scope reports is the path SQL assembles from the columns that store it. */
  lemma PathIsSqlPath(s: Scope)
    requires s.Valid() && !s.kind.PlatformKind?
    ensures s.Path() == SqlScopePath(s.organizationId, s.projectId, EnvironmentColumn(s), ApplicationColumn(s))
  {
    PathFromColumns(s, Text(s.organizationId), Text(s.projectId), Text(s.environmentId), Text(s.applicationId));
  }

  lemma PathFromColumns(s: Scope, o: string, p: string, e: string, a: string)
    requires s.kind.ProjectKind? || s.kind.EnvironmentKind? || s.kind.ApplicationKind?
    requires o == Text(s.organizationId) && p == Text(s.projectId) && e == Text(s.environmentId)
             && a == Text(s.applicationId)
    ensures s.Path() == SqlScopePath(s.organizationId, s.projectId, EnvironmentColumn(s), ApplicationColumn(s))
  {
    var head := ["organizations", o, "projects", p];
    match s.kind
    case ProjectKind =>
      JoinHead(o, p, []);
      assert s.Parts() == head + [];
    case EnvironmentKind =>
      JoinHead(o, p, ["environments", e]);
      JoinEnvironment(e);
      assert s.Parts() == head + ["environments", e];
    case ApplicationKind =>
      JoinHead(o, p, ["environments", e, "applications", a]);
      JoinApplication(e, a);
      assert s.Parts() == head + ["environments", e, "applications", a];
  }

  /** Where the identifiers sit in a path, and how long the path is. */
  ghost predicate PathShape(path: string, org: Uuid, project: Uuid, environment: Option<Uuid>,
      application: Option<Uuid>) {
    && |path| == 97 + (if environment.Some? then 50 else 0) + (if application.Some? then 50 else 0)
    && path[..15] == "/organizations/"
    && path[15..51] == Text(org)
    && path[51..61] == "/projects/"
    && path[61..97] == Text(project)
    && (environment.Some? ==> path[97..111] == "/environments/" && path[111..147] == Text(environment.value))
    && (environment.Some? && application.Some? ==> path[147..161] == "/applications/")
    && (environment.Some? && application.Some? ==> path[161..197] == Text(application.value))
  }

  /** The slices of a text made of three parts. */
  lemma SlicesOfThree(a: string, b: string, c: string)
    ensures (a + b + c)[..|a|] == a && (a + b + c)[|a|..|a| + |b|] == b && (a + b + c)[|a| + |b|..] == c
  {
    assert (a + b + c)[..|a|] == a;
    assert (a + b + c)[|a|..|a| + |b|] == b;
    assert (a + b + c)[|a| + |b|..] == c;
  }

  lemma SliceOfSlice(s: string, from: nat, to: nat, i: nat, j: nat)
    requires from <= to <= |s| && i <= j <= to - from
    ensures s[from..to][i..j] == s[from + i..from + j]
  {
    var inner, outer := s[from..to][i..j], s[from + i..from + j];
    forall k | 0 <= k < j - i
      ensures inner[k] == outer[k]
    {
      assert inner[k] == s[from..to][i + k];
    }
  }

  lemma HeadShape(org: Uuid, project: Uuid)
    ensures var head := "/organizations/" + Text(org) + "/projects/" + Text(project);
            |head| == 97 && head[..15] == "/organizations/" && head[15..51] == Text(org)
            && head[51..61] == "/projects/" && head[61..97] == Text(project)
  {
    var o, p := Text(org), Text(project);
    SlicesOfThree("/organizations/", o, "/projects/");
    SlicesOfThree("/organizations/" + o + "/projects/", p, "");
    var head := "/organizations/" + o + "/projects/" + p;
    assert head + "" == head;
    SliceOfSlice(head, 0, 61, 0, 15);
    SliceOfSlice(head, 0, 61, 15, 51);
    SliceOfSlice(head, 0, 61, 51, 61);
  }

  lemma PairShape(kind: string, id: Uuid)
    requires |kind| == 14
    ensures |kind + Text(id)| == 50 && (kind + Text(id))[..14] == kind && (kind + Text(id))[14..50] == Text(id)
  {
    assert (kind + Text(id))[..14] == kind;
  }

  lemma SqlPathShape(org: Uuid, project: Uuid, environment: Option<Uuid>, application: Option<Uuid>)
    ensures PathShape(SqlScopePath(org, project, environment, application), org, project, environment, application)
  {
    var head := "/organizations/" + Text(org) + "/projects/" + Text(project);
    var e := if environment.None? then "" else "/environments/" + Text(environment.value);
    var a := if application.None? then "" else "/applications/" + Text(application.value);
    var path := head + e + a;
    HeadShape(org, project);
    SlicesOfThree(head, e, a);
    SliceOfSlice(path, 0, 97, 0, 15);
    SliceOfSlice(path, 0, 97, 15, 51);
    SliceOfSlice(path, 0, 97, 51, 61);
    SliceOfSlice(path, 0, 97, 61, 97);
    if environment.Some? {
      PairShape("/environments/", environment.value);
      SliceOfSlice(path, 97, 147, 0, 14);
      SliceOfSlice(path, 97, 147, 14, 50);
      if application.Some? {
        PairShape("/applications/", application.value);
        SliceOfSlice(path, 147, 197, 0, 14);
        SliceOfSlice(path, 147, 197, 14, 50);
      }
    }
  }

  lemma ScopePathShape(s: Scope)
    requires s.Valid() && !s.kind.PlatformKind?
    ensures PathShape(s.Path(), s.organizationId, s.projectId, EnvironmentColumn(s), ApplicationColumn(s))
  {
    PathIsSqlPath(s);
    SqlPathShape(s.organizationId, s.projectId, EnvironmentColumn(s), ApplicationColumn(s));
  }

  /** Equal prefixes give equal slices inside the prefix. */
  lemma SliceOfPrefix(p: string, q: string, i: nat, j: nat)
    requires p <= q && i <= j <= |p|
    ensures p[i..j] == q[i..j]
  {
    assert q[..|p|] == p;
    assert q[i..j] == q[..|p|][i..j];
  }

  lemma PrefixFixesIdentifiers(a: Scope, b: Scope)
    requires a.Valid() && b.Valid() && !a.kind.PlatformKind? && !b.kind.PlatformKind?
    requires a.Path() <= b.Path()
    ensures a.Contains(b)
  {
    ScopePathShape(a);
    ScopePathShape(b);
    SliceOfPrefix(a.Path(), b.Path(), 15, 51);
    SliceOfPrefix(a.Path(), b.Path(), 61, 97);
    TextInjective(a.organizationId, b.organizationId);
    TextInjective(a.projectId, b.projectId);
    if a.kind.EnvironmentKind? || a.kind.ApplicationKind? {
      SliceOfPrefix(a.Path(), b.Path(), 111, 147);
      TextInjective(a.environmentId, b.environmentId);
    }
    if a.kind.ApplicationKind? {
      SliceOfPrefix(a.Path(), b.Path(), 161, 197);
      TextInjective(a.applicationId, b.applicationId);
    }
  }

  /** A text followed by one that starts with a slash is extended at a segment boundary. */
  lemma ExtendedBySegment(base: string, rest: string)
    requires rest != "" && rest[0] == '/'
    ensures base + "/" <= base + rest
  {
    assert (base + rest)[..|base| + 1] == base + "/";
  }

  function ProjectText(s: Scope): string {
    "/organizations/" + Text(s.organizationId) + "/projects/" + Text(s.projectId)
  }

  function EnvironmentText(s: Scope): string {
    "/environments/" + Text(s.environmentId)
  }

  function ApplicationText(s: Scope): string {
    "/applications/" + Text(s.applicationId)
  }

  lemma PathOfKind(s: Scope)
    requires s.Valid() && !s.kind.PlatformKind?
    ensures s.kind.ProjectKind? ==> s.Path() == ProjectText(s)
    ensures s.kind.EnvironmentKind? ==> s.Path() == ProjectText(s) + EnvironmentText(s)
    ensures s.kind.ApplicationKind? ==> s.Path() == ProjectText(s) + EnvironmentText(s) + ApplicationText(s)
  {
    PathIsSqlPath(s);
  }

  lemma ProjectPathExtends(a: Scope, b: Scope)
    requires a.Valid() && b.Valid() && a.kind.ProjectKind? && a.Contains(b)
    ensures a.Path() == b.Path() || a.Path() + "/" <= b.Path()
  {
    PathOfKind(a);
    PathOfKind(b);
    var p, e, t := ProjectText(a), EnvironmentText(b), ApplicationText(b);
    if b.kind.EnvironmentKind? {
      ExtendedBySegment(p, e);
    } else if b.kind.ApplicationKind? {
      ExtendedBySegment(p, e + t);
      assert p + (e + t) == p + e + t;
    }
  }

  lemma EnvironmentPathExtends(a: Scope, b: Scope)
    requires a.Valid() && b.Valid() && a.kind.EnvironmentKind? && a.Contains(b)
    ensures a.Path() == b.Path() || a.Path() + "/" <= b.Path()
  {
    PathOfKind(a);
    PathOfKind(b);
    if b.kind.ApplicationKind? {
      ExtendedBySegment(a.Path(), ApplicationText(b));
    }
  }

  lemma ContainedPathExtends(a: Scope, b: Scope)
    requires a.Valid() && b.Valid() && !a.kind.PlatformKind? && a.Contains(b)
    ensures a.Path() == b.Path() || a.Path() + "/" <= b.Path()
  {
    match a.kind
    case ProjectKind => ProjectPathExtends(a, b);
    case EnvironmentKind => EnvironmentPathExtends(a, b);
    case _ =>
      PathOfKind(a);
      PathOfKind(b);
  }

  lemma PlatformPathApart(s: Scope)
    requires s.Valid() && !s.kind.PlatformKind?
    ensures s.Tenant() != "platform" && |s.Path()| >= 97
    ensures !ScopeMatch(s.Path(), "/platform") && !ScopeMatch("/platform", s.Path())
  {
    ScopePathShape(s);
    var path := s.Path();
    assert path[1] == path[..15][1] == 'o';
    assert "/platform/"[1] == 'p';
  }

  // ---------------------------------------------------------------------------------------------
  // Theorems
  // ---------------------------------------------------------------------------------------------

  /** The tenant test plus the path-prefix test of the policy model is exactly structural containment. */
  lemma MatchIffContains(policy: Scope, target: Scope)
    requires policy.Valid() && target.Valid()
    ensures target.Tenant() == policy.Tenant() && ScopeMatch(target.Path(), policy.Path()) <==> policy.Contains(target)
  {
    if policy.kind.PlatformKind? || target.kind.PlatformKind? {
      if !policy.kind.PlatformKind? { PlatformPathApart(policy); }
      if !target.kind.PlatformKind? { PlatformPathApart(target); }
    } else {
      PlatformPathApart(policy);
      PlatformPathApart(target);
      if policy.Contains(target) {
        ContainedPathExtends(policy, target);
      } else if ScopeMatch(target.Path(), policy.Path()) {
        assert policy.Path() <= policy.Path() + "/";
        assert policy.Path() <= target.Path();
        PrefixFixesIdentifiers(policy, target);
      }
    }
  }

  /** No two valid scopes print the same path. */
  lemma PathInjective(a: Scope, b: Scope)
    requires a.Valid() && b.Valid() && a.Path() == b.Path()
    ensures a == b
  {
    if a.kind.PlatformKind? || b.kind.PlatformKind? {
      if !a.kind.PlatformKind? { PlatformPathApart(a); }
      if !b.kind.PlatformKind? { PlatformPathApart(b); }
    } else {
      PrefixFixesIdentifiers(a, b);
      PrefixFixesIdentifiers(b, a);
      ScopePathShape(a);
      ScopePathShape(b);
    }
  }

  /** Containment is a partial order on valid scopes whose up-sets are chains: the scopes form a forest. */
  lemma ContainmentIsForestOrder(a: Scope, b: Scope, c: Scope)
    requires a.Valid() && b.Valid() && c.Valid()
    ensures a.Contains(a)
    ensures a.Contains(b) && b.Contains(a) ==> a == b
    ensures a.Contains(b) && b.Contains(c) ==> a.Contains(c)
    ensures a.Contains(c) && b.Contains(c) ==> a.Contains(b) || b.Contains(a)
  {
  }

  /** A policy path that covers a scope covers everything the scope contains, whatever the policy path is. */
  lemma MatchIsInherited(policy: string, root: Scope, inner: Scope)
    requires root.Valid() && inner.Valid() && root.Contains(inner)
    requires ScopeMatch(root.Path(), policy)
    ensures ScopeMatch(inner.Path(), policy)
  {
    if !root.kind.PlatformKind? {
      ContainedPathExtends(root, inner);
      if policy + "/" <= root.Path() && root.Path() + "/" <= inner.Path() {
        assert root.Path() <= root.Path() + "/";
        assert policy + "/" <= inner.Path();
      }
    }
  }
}
