# ReleaseHub access, audit and onboarding model

A Dafny 4.11 model of the server's authorization, audit and Argo CD onboarding components, with proofs of the
properties they rely on. Tables are maps from identifier to row; a transaction is one atomic step that commits whole
or leaves no writes. Where the program changes state step by step the model has classes and loops proved against
functions, and the theorems are about those functions.

## What is proved

- **Who may see what.** A question answered four ways (structural scopes, the path matcher with deny-override, paths
  assembled in SQL, predicates over nullable columns) has one answer: `Scopes`, `PolicyTables`, `PolicyDecision`,
  `Sql`, `AuditVisibility`, `AuditCapabilities`, `AuditService`. The central theorem is
  `AuditVisibility.SqlAgreesWithEngine`; `AuditPages`, `Cursor` and `Base64Url` have walks over pages, and `AuditList`
  joins them: `ListShowsEachViewableEventOnce` is about whole successions of list requests.
  `PolicyLaws` and `AuditLaws` say the same in terms of rows, columns and the request alone: `DecisionIsInTheRows` for
  a decision, `PageIsInTheRows` for a page. `AuditQuery` builds the WHERE clause of a page.
- **The cached policy engine.** `PolicyEngine` is one caller's view of the cache, whatever fails or commits between its
  reads; `PolicyRuns` interleaves any number of callers, reloads and commits at the grain of single reads.
- **The onboarding protocol.** `ArgoDomain`, `OnboardingRepository`, `OnboardingCommands`, `OnboardingService`,
  `OnboardingRuns`, `OnboardingStates`, `OnboardingProgress` and `OnboardingLaws`: API requests, the recovery worker,
  the reconciler and crashes interleave at the grain of one transaction or one Argo CD call, and Argo CD may answer
  anything.
- **Reconciliation.** `Reconciliation` and `ReconciliationRuns`: one cycle and any run of cycles;
  `ReconciliationLaws` has the rows one cycle writes, column by column, and what its counters count.
- **Access management.** `AccessRepository`, `OidcGroups` and `AccessContinuity` (the continuity guard against logins
  and other mutations), `AccessSnapshots`, `AccessCommands`, `AccessBindings`, `AccessPages` and `AccessLists` (what is
  shown and offered against what is accepted). `AccessLaws` and `CommandLaws` say by rows and columns what each
  mutation leaves and what each command accepts.
- **Two self-contained algorithms.** `Metadata` (the sanitizer, for every value and every order of keys) and
  `EdgeIds`, `Topology`, `TopologyLaws`, `TopologyLinks` (the bounded topology).

## What is not so

Four claims one might expect are false of the code. Each has a witness and its exact condition.

- A fresh decision is never older than its call. A reload reads the policy before the revision, so a commit in between
  is counted but not seen: `PolicyRuns.RacedDecisionCanBeStale`, `PolicyRuns.DecisionsAreFresh`. Disabling a user raises
  no revision at all; that is harmless, by `PolicyEngine.MissedUserChangesDecideAlike`.
- The continuity guard always leaves a manager the engine grants. It counts memberships of any source while the engine
  grants manual ones only: `AccessContinuity.CountCanMissTheEngine`; `GuardKeepsEngineManagerIff` for one call and
  `EngineManagersStayIff` for runs.
- A counted manager is there in every state. A login may drop the last one:
  `AccessContinuity.SyncCanRemoveTheLastCounted`; `LoginKeepsManagersIff` for one login and `CountedManagersStayIff` for
  runs, over the tables before each login.
- A list under a viewable root shows what opens there. Platform viewers are spared their denies when they open an event,
  not when they list under a narrower root: `AuditService.NarrowListHidesOpenable`, `ListedExactlyWhenOpenable`.

## Assumptions

They appear as preconditions of the members that need them.

- Row identifiers are unique, identifiers that are foreign keys or principals are not the zero UUID, and row tokens and
  new row identifiers are fresh.
- Binding and deny rows have the scope kind that goes with the columns that are set, none of them the zero UUID
  (Server/migrations/20260901000200_create_authorization_policy.up.sql:81-85, 104-108), and audit ancestry is downward
  complete (Server/migrations/20260917001800_create_audit_trail_foundation.up.sql:9-14).
- Audit records are append-only (Server/migrations/20260917001800_create_audit_trail_foundation.up.sql:226-237).
- Every commit that changes a policy table raises the revision; the table of users has no such trigger, users are never
  enabled again, and a new user has no membership yet. A request carries the caller's current disabled flag where a
  theorem says so.
- SHA-256, HMAC (section 2 of RFC 2104), JSON, Unicode folding and white space, trimming, lower-casing and UUID parsing
  are function parameters with the injectivity, round-trip or idempotence facts a theorem states. The program and the
  database are taken to lower-case alike.
- Kubernetes namespaces hold no slash, and the parts of a topology key hold no slash and its group no colon.
- Times are integers from the zero time.

Elsewhere too the code is followed where it may surprise: a missing label equals an empty selector value, a reference
named only by white space counts as named for selector restrictions, a filter with an empty window end makes cursors
that only the same moment accepts, and binding a platform role again conflicts even when the earlier binding was
revoked.

## Model

| member | source | states |
|---|---|---|
| UuidText.TextInjective | Server/internal/authorization/domain/scope.go:98-118 | Distinct identifiers print differently, so a tenant or path names its identifiers uniquely. |
| UuidText.TextReadsBack | Server/internal/authorization/domain/scope.go:98-118 | The text has dashes at its four places, and its lower-case hexadecimal digits read back as the identifier. |
| Scopes.PathIsSqlPath | Server/internal/authorization/infrastructure/policy_adapter.go:107-110 | For every valid non-platform scope, the path SQL assembles from its nullable columns is the canonical path. |
| Scopes.MatchIffContains | Server/internal/authorization/infrastructure/policy_engine.go:134-144 | Tenant equality plus the path matcher holds exactly when the policy scope contains the target. |
| Scopes.PathInjective | Server/internal/authorization/domain/scope.go:98-111 | No two valid scopes print the same path. |
| Scopes.ContainmentIsForestOrder | Server/internal/authorization/domain/scope.go:78-96 | Containment is reflexive, antisymmetric and transitive, and two scopes that contain a third are comparable. |
| Scopes.MatchIsInherited | Server/internal/authorization/infrastructure/policy_engine.go:134-144 | A policy path that covers a scope covers every scope inside it, whatever text the policy path is. |
| Scopes.PlatformPathApart | Server/internal/authorization/domain/scope.go:98-118 | The platform tenant and path never match a resource scope, in either direction. |
| Scopes.ScopeMatchMeans | Server/internal/authorization/infrastructure/policy_engine.go:134-144 | For any two texts: they match when equal and not empty, or when the policy is the beginning of the resource up to a slash. |
| PolicyTables.RuleOrigin | Server/internal/authorization/infrastructure/policy_adapter.go:91-149 | Every loaded rule comes from a live membership with a live platform binding, scoped binding or deny row, and is that row's rule. |
| PolicyTables.PlatformRuleLoaded | Server/internal/authorization/infrastructure/policy_adapter.go:92-102 | Every live manual membership, platform binding and role permission yields its platform rule. |
| PolicyTables.AllowRuleLoaded | Server/internal/authorization/infrastructure/policy_adapter.go:103-125 | Every live scoped grant yields its allow rule; OIDC members get it only for resource.view in viewer-only groups. |
| PolicyTables.DenyRuleLoaded | Server/internal/authorization/infrastructure/policy_adapter.go:125-143 | Every live deny row of a live member yields its deny rule. |
| PolicyDecision.DenyMatchIsDeniedAt | Server/internal/authorization/infrastructure/policy_engine.go:17-30 | Some loaded deny rule matches a request exactly when a live deny row of that user covers the target. |
| PolicyDecision.AllowMatchIsGrantedAt | Server/internal/authorization/infrastructure/policy_engine.go:17-30 | Some loaded allow rule matches a request exactly when a live grant of that user covers the target. |
| PolicyDecision.DecisionFromTables | Server/internal/authorization/infrastructure/policy_engine.go:71-87 | The engine allows exactly valid requests of enabled callers that some live grant covers and no live deny does. |
| PolicyDecision.AllowIsInheritedUnlessDenied | Server/internal/authorization/infrastructure/policy_engine.go:17-30 | Allowed at a scope means allowed at each scope inside it exactly when no deny covers that one. |
| PolicyLaws.DecisionIsInTheRows | Server/internal/authorization/infrastructure/policy_engine.go:71-87 | The decision in terms of rows and columns alone: allowed exactly when active, enabled rows grant the permission there, by columns that are NULL or equal, and no active deny row does, for an enabled caller and a proper scope. |
| PolicyLaws.MalformedIff | Server/internal/authorization/infrastructure/policy_engine.go:71-80 | A request is malformed exactly without a user or with a scope whose identifiers do not go with its kind. |
| PolicyLaws.ListedRootsAreGranted | Server/internal/audit/application/query_service.go:54-79 | Every listed audit root lies in an active project, and some rows grant viewing there. |
| PolicyLaws.RootRowsMean | Server/internal/audit/infrastructure/visibility_resolver.go:48-68 | The rows of the capability query, by columns. |
| PolicyEngine.PolicySource.Commit | Server/migrations/20260901000200_create_authorization_policy.up.sql:126-171 | A commit raises the revision by one for each statement on a policy table (for platform bindings by the trigger of migration 20260902000800, lines 23-25); one that raises none has changed users only. |
| PolicyEngine.NewPolicyEngine | Server/internal/authorization/infrastructure/policy_engine.go:47-68 | The first load: no engine if a read fails, otherwise the rules of the tables at the first read, tagged with the revision at the second. |
| PolicyEngine.Engine.Reload | Server/internal/authorization/infrastructure/policy_engine.go:90-103 | With any failure and any commit between the reads: a failed policy read changes nothing, a failed revision read leaves new rules under the old tag, otherwise the rules of the first read are tagged with the revision of the second. |
| PolicyEngine.Engine.ReloadIfStale | Server/internal/authorization/infrastructure/policy_engine.go:105-117 | The cache is replaced exactly when the source's revision is newer than the tag; undisturbed, a truthful tag then equals the revision and stays truthful. |
| PolicyEngine.Engine.AuthorizeFresh | Server/internal/authorization/infrastructure/policy_engine.go:119-125 | Fails exactly when a needed read fails; otherwise decides by cached rules whose tag has caught up. From a truthful tag, undisturbed, those rules reflect the committed tables but for missed user changes. |
| PolicyEngine.MissedUserChangesDecideAlike | Server/internal/authorization/infrastructure/management_repository.go:375-387 | Disabling users raises no revision, yet a cache that missed it decides every request as the current tables would, for every caller whose own disabled flag is current. |
| PolicyEngine.ReflectingRulesDecide | Server/internal/authorization/infrastructure/policy_engine.go:71-87 | Rules that reflect the tables give the tables' own decision, or its error, for those callers. |
| PolicyLaws.ReflectingRulesDecideByRows | Server/internal/authorization/infrastructure/policy_engine.go:71-87 | What the cache answers from rules that reflect the tables, by rows and columns: a malformed request, a grant without deny, or a refusal. |
| PolicyRuns.TagNeverDecreases | Server/internal/authorization/infrastructure/policy_engine.go:90-117 | In every interleaving of commits, loads, failures and requests, a later tag is at least an earlier one. |
| PolicyRuns.DecisionsAreFresh | Server/internal/authorization/infrastructure/policy_engine.go:90-125 | Every decision is taken at a tag no older than the revision at its call, by one committed policy; that policy is older than the call exactly when a commit raised the revision between the two reads of the load that brought it, to a revision the call had already reached when it began. |
| PolicyRuns.FreshDecisionIsCommitted | Server/internal/authorization/infrastructure/policy_engine.go:119-125 | A decision outside that case is the one the tables of some moment since the call give, for callers whose own disabled flag is current. |
| PolicyRuns.RacedDecisionCanBeStale | Server/internal/authorization/infrastructure/policy_engine.go:93-100 | A run in which a commit between the two reads makes a later call use the older policy: the unconditional claim is false. |
| AuditVisibility.VisibilityPredicates | Server/internal/audit/infrastructure/postgres_repository.go:246-275 | The loop builds the root clauses and one negated clause a deny, or fails on a scope SQL cannot express. |
| AuditVisibility.Resolve | Server/internal/audit/infrastructure/visibility_resolver.go:84-111 | Keeps exactly the deny scopes under the root; it fails exactly on a row that does not convert, and never on rows whose columns go with their kind. |
| AuditVisibility.RowConverts | Server/internal/audit/infrastructure/visibility_resolver.go:113-130 | A row whose set columns go with its kind converts to the valid scope of that kind with exactly the row's identifiers and nullable columns. |
| AuditVisibility.RowIsRefusedIff | Server/internal/audit/infrastructure/visibility_resolver.go:113-130 | A row is refused exactly when it lacks an identifier its kind needs or has no resource kind. |
| AuditVisibility.DenyRowsConvert | Server/internal/audit/infrastructure/visibility_resolver.go:84-111 | Over well-formed deny tables every row of the deny query converts. |
| AuditVisibility.RootKeepsScopesUnderRoot | Server/internal/audit/infrastructure/postgres_repository.go:249-264 | The root clauses keep exactly the resolved events whose authorization scope lies under the root. |
| AuditVisibility.DeniedClauseIsContainment | Server/internal/audit/infrastructure/postgres_repository.go:266-288 | Over nullable columns a negated deny clause is true exactly when the deny does not contain the event's scope; it is never unknown there. |
| AuditVisibility.DeniedConditionsKeep | Server/internal/audit/infrastructure/postgres_repository.go:266-273 | All deny clauses together keep exactly the events no listed deny contains. |
| AuditVisibility.RowCoverage | Server/internal/audit/infrastructure/visibility_resolver.go:113-130 | A deny row converted to a scope covers a target exactly when its policy rule matches it. |
| AuditVisibility.CoveringDenyIsKept | Server/internal/audit/infrastructure/visibility_resolver.go:101-109 | A deny that covers an event under an authorized root lies under that root, so the projection keeps it. |
| AuditVisibility.ResolvedDeniesAreComplete | Server/internal/audit/infrastructure/visibility_resolver.go:84-111 | Dropping the denies outside an authorized root loses nothing: the kept ones cover an event under it exactly when the engine denies it. |
| AuditVisibility.SqlAgreesWithEngine | Server/internal/audit/infrastructure/postgres_repository.go:246-288 | For any tables and any authorized non-platform root, SQL keeps an event exactly when it is resolved, under the root and allowed by the engine at its own scope. |
| AuditCapabilities.ListRoots | Server/internal/audit/infrastructure/visibility_resolver.go:38-81 | Converts every row of the capability query with its label, in order; it fails exactly when one does not convert, which rows with the columns of their kind always do. |
| AuditCapabilities.Capabilities | Server/internal/audit/application/query_service.go:54-79 | Returns the platform alone for platform viewers, otherwise the labelled candidate roots the engine allows, in the order of the query; on well-formed rows it succeeds for every identified caller. |
| AuditCapabilities.RootRowsConvert | Server/internal/audit/infrastructure/visibility_resolver.go:38-81 | Over well-formed binding tables every row of the capability query converts. |
| AuditCapabilities.ListedAreAllowedCandidates | Server/internal/audit/application/query_service.go:66-77 | A scope is listed exactly when it is a candidate and the engine allows it. |
| AuditCapabilities.CoveringRootIsListed | Server/internal/audit/infrastructure/visibility_resolver.go:38-81 | The binding behind any allowed scope of an active project is a candidate root the engine allows. |
| AuditCapabilities.CapabilitiesSoundAndComplete | Server/internal/audit/application/query_service.go:54-79 | A scope of an active project is viewable exactly when a listed root contains it and no live deny covers it. |
| AuditService.Detail | Server/internal/audit/application/query_service.go:146-180 | An event opens exactly when it exists and the engine lets the caller view it, with its summary and its sanitized metadata; the SQL applied again never hides it. Everything else is reported as missing, to a caller that can be identified. |
| AuditService.ListedExactlyWhenOpenable | Server/internal/audit/application/query_service.go:94-180 | For every caller, under a viewable root a list keeps an event exactly when it opens, lies there and, below the platform, no live deny covers it; without platform access the last condition is implied. |
| AuditService.NarrowListHidesOpenable | Server/internal/audit/application/query_service.go:94-180 | Concrete tables where a platform viewer's list under a project hides an event that opens for it: listing and opening do not agree for every caller. |
| AuditList.NormalizeFilter | Server/internal/audit/domain/filter.go:38-72 | The stepwise defaults and bounds of a filter. |
| AuditList.NormalizationIsStable | Server/internal/audit/domain/filter.go:38-72 | A normalized filter is within all bounds and normalizes to itself at any later time. |
| AuditList.ProjectionIsVisibility | Server/internal/audit/infrastructure/postgres_repository.go:207-237 | The visibility clauses and the filter keep a stored row exactly when the filter keeps it and the engine lets the caller view it. |
| AuditQuery.ActorPredicate | Server/internal/audit/infrastructure/postgres_repository.go:223-231 | Appends IS NULL for the system, an equality for an identifier and a lower-case comparison for a name, which over nullable columns keep exactly the rows of that actor. |
| AuditQuery.AuditPredicates | Server/internal/audit/infrastructure/postgres_repository.go:207-237 | The whole WHERE clause, built condition by condition, is true over nullable columns exactly where visibility, window, texts, actor and keyset all hold. |
| AuditList.FetchPage | Server/internal/audit/infrastructure/postgres_repository.go:96-121 | The stored page with its cursor: one query with that WHERE clause, over-fetched by a row, gives the next rows in descending order that visibility and filter keep. |
| AuditList.List | Server/internal/audit/application/query_service.go:94-123 | A request succeeds exactly when its filter normalizes, its scope is allowed and its cursor is for this filter; its page is the next rows in descending order of those the caller may view. A refusal names the first thing wrong. |
| AuditList.ListRequestsFormAWalk | Server/internal/audit/application/query_service.go:94-123 | Successive list requests, each with the cursor of the page before, are a walk over pages of the rows the caller may view. |
| AuditList.ListShowsEachViewableEventOnce | Server/internal/audit/application/query_service.go:94-123 | End to end: following those cursors shows no event twice, shows only what the caller may view, and when no more is announced has shown every such event present at the first request. |
| AuditLaws.NormalizesWhatWasAsked | Server/internal/audit/domain/filter.go:38-72 | Without naming the filter predicate: a request is accepted exactly within a window of 90 days, 100 rows and 255 characters a text, and then keeps exactly the rows in the window with each text asked for and one of the three actor forms. |
| AuditLaws.VisibleIsInTheRows | Server/internal/audit/infrastructure/postgres_repository.go:246-288 | Under a root the caller may view, what they are to see is what lies under it by its own columns and no active deny row of theirs covers. |
| AuditLaws.PageIsInTheRows | Server/internal/audit/application/query_service.go:94-123 | In terms of request, rows and columns alone: a page shows, newest first, the columns of exactly the next rows asked for that the caller may see, 20 by default; such a row is missing only from a full page that announces more. |
| AuditLaws.AnsweredIff | Server/internal/audit/application/query_service.go:94-110 | A list request is answered exactly within bounds, for a caller the rows allow its scope and with a cursor made for it; otherwise it names the first thing wrong. |
| AuditLaws.OpensIffRows | Server/internal/audit/application/query_service.go:146-170 | An event opens exactly to callers whom the rows allow viewing the platform, or the resource scope the event's own columns name. |
| AuditPages.ListPage | Server/internal/audit/infrastructure/postgres_repository.go:111-120 | Cuts an over-fetched result to the page of summaries, reports whether more follows and encodes the last row's position. |
| AuditPages.FingerprintFixesSelection | Server/internal/audit/domain/filter.go:75-87 | Filters with one fingerprint name the same scope and select the same events. |
| AuditPages.CursorAcceptedLaterIff | Server/internal/audit/domain/filter.go:38-45 | A cursor of one request is accepted at another time exactly when the window end was given or the time is the same. |
| AuditPages.WalkReturnsEachRowOnce | Server/internal/audit/infrastructure/postgres_repository.go:96-120 | Whatever is inserted between pages, a walk is strictly descending, never repeats a row, and when finished holds every row present from the start. |
| AuditPages.WalkTerminates | Server/internal/audit/infrastructure/postgres_repository.go:96-120 | On an unchanging table the number of requests is bounded by the number of full pages plus one. |
| Base64Url.RoundTrip | Server/internal/audit/domain/cursor.go:43-74 | Unpadded base64url of section 5 of RFC 4648 decodes to what was encoded and uses no dot. |
| Base64Url.GroupsAreBigEndian | Server/internal/audit/domain/cursor.go:43-74 | Each three bytes and their four 6-bit values are one number; a short last group is filled with zero bits. |
| Cursor.CursorRoundTrip | Server/internal/audit/domain/cursor.go:43-89 | A cursor decodes to its position under its own filter fingerprint and is refused under any other. |
| Cursor.AcceptedCursorIsSigned | Server/internal/audit/domain/cursor.go:56-74 | A non-empty cursor is accepted only with a matching signature over a payload for this version and fingerprint. |
| Metadata.SanitizeMetadata | Server/internal/audit/domain/metadata.go:24-38 | Empty input, undecodable input, a sanitized object, or the marker when the result does not encode in 16384 bytes. |
| Metadata.SanitizeObject | Server/internal/audit/domain/metadata.go:40-60 | For any order of keys the result is a possible cleaning of the object and the flag says whether anything was changed; too deep gives the marker. |
| Metadata.SanitizeValue | Server/internal/audit/domain/metadata.go:62-88 | The result is a possible cleaning at this depth and the flag is the incoming one or the value's own. |
| Metadata.NothingSurvivesUnderForbiddenKeys | Server/internal/audit/domain/metadata.go:47-58 | At any depth of a result, [REDACTED] stands under every key whose folded text contains one of the eleven words, written out. |
| Metadata.ForbiddenIffNamesSecret | Server/internal/audit/domain/metadata.go:90-103 | A key is redacted exactly when its folded text is something, one of the eleven words, something: containment, not a prefix. |
| Metadata.NormalizedJoins | Server/internal/audit/domain/metadata.go:91-96 | Folding a text drops what is no letter or digit and folds the rest, piece by piece. |
| Metadata.OrdinaryEntriesAreCleaned | Server/internal/audit/domain/metadata.go:40-60 | An entry whose key contains no such word is kept with its own value cleaned one level deeper; no entry is invented. |
| Metadata.ItemsAreCleaned | Server/internal/audit/domain/metadata.go:70-79 | A cleaned list holds its first 100 items in order, each cleaned one level deeper. |
| Metadata.ScalarsAreKept | Server/internal/audit/domain/metadata.go:80-87 | Within the depth, numbers, booleans and nulls are kept and strings cut at 2048 bytes. |
| Metadata.SanitizedMeans | Server/internal/audit/domain/metadata.go:24-38 | What the whole sanitizer may answer, with its constants written out. |
| Metadata.TokenIsRedacted | Server/internal/audit/domain/metadata.go:52-56 | The value under any key that folds to a text with the word token inside is replaced, and the flag is set. |
| Metadata.ResultIsBounded | Server/internal/audit/domain/metadata.go:40-88 | Containers of a result nest at most 8 deep and hold at most 100 entries; strings have at most 2048 bytes. |
| Metadata.SanitizingIsIdempotent | Server/internal/audit/domain/metadata.go:40-88 | Sanitizing a result again, in any order, gives the same result. |
| Metadata.FlagIsExact | Server/internal/audit/domain/metadata.go:40-88 | The flag is false exactly when the value was in bounds without forbidden keys, and then it is unchanged. |
| Metadata.MarkerIsAllowed | Server/internal/audit/domain/metadata.go:90-103 | The truncation marker's own key holds no forbidden fragment. |
| Metadata.WholeResultIsFixed | Server/internal/audit/domain/metadata.go:32-37 | The whole result, size bound included, is a fixed point. |
| ArgoDomain.FindSource | Server/internal/argocd/domain/onboarding.go:145-152 | The loop finds a source exactly when one equals the expected repository, revision and path. |
| ArgoDomain.ValidateObservation | Server/internal/argocd/domain/onboarding.go:88-112 | The issues of a fresh read, each exactly when its fact fails, in order. |
| ArgoDomain.DetectDrift | Server/internal/argocd/domain/onboarding.go:115-136 | The drift reasons of an observation, each exactly when its fact differs, in order; a missing application alone. |
| ArgoDomain.IssuesAreExact | Server/internal/argocd/domain/onboarding.go:88-112 | Each issue is reported exactly when its own fact fails, none twice, in the order of the checks. |
| ArgoDomain.ReasonsAreExact | Server/internal/argocd/domain/onboarding.go:115-136 | Each drift reason is reported exactly when its own fact differs, none twice, in the order of the checks. |
| ArgoDomain.AcceptedReadbackIffNoDrift | Server/internal/argocd/domain/onboarding.go:88-152 | A readback is accepted exactly when it drifts in nothing and identity, production and candidate presence hold. |
| OnboardingRepository.Repository.SaveValidation | Server/internal/argocd/infrastructure/onboarding_repository.go:75-120 | Inserts or resets the row unless it is Applying or Managed; a refusal leaves no writes. |
| OnboardingRepository.Repository.BeginApplying | Server/internal/argocd/infrastructure/onboarding_repository.go:123-129 | Moves a row from AwaitingConfirmation at the expected version to Applying, or changes nothing. |
| OnboardingRepository.Repository.BeginApplyingIdempotent | Server/internal/argocd/infrastructure/onboarding_repository.go:132-173 | Reserves the key and enters Applying together, replays a stored command, or leaves no writes. |
| OnboardingRepository.Repository.MarkManaged | Server/internal/argocd/infrastructure/onboarding_repository.go:176-181 | Moves Applying at the expected version to Managed and completes that application's accepted confirmations with the new version. |
| OnboardingRepository.Repository.RecordOperationError | Server/internal/argocd/infrastructure/onboarding_repository.go:184-210 | Stores only an error code and the next version on an Applying row at the expected version. |
| OnboardingRepository.SaveValidationKeeps | Server/internal/argocd/infrastructure/onboarding_repository.go:75-120 | Validation keeps the command invariant, loses no row or reservation and only raises versions. |
| OnboardingRepository.BeginKeeps | Server/internal/argocd/infrastructure/onboarding_repository.go:123-129 | Confirmation keeps them. |
| OnboardingRepository.BeginIdempotentKeeps | Server/internal/argocd/infrastructure/onboarding_repository.go:132-173 | Idempotent confirmation keeps them. |
| OnboardingRepository.MarkManagedKeeps | Server/internal/argocd/infrastructure/onboarding_repository.go:232-277 | Completion keeps them and never rewrites a completed command. |
| OnboardingRepository.RecordErrorKeeps | Server/internal/argocd/infrastructure/onboarding_repository.go:184-210 | Recording an error keeps them. |
| OnboardingRepository.MarkDriftKeeps | Server/internal/argocd/infrastructure/reconciliation_repository.go:284-295 | Marking drift keeps them. |
| OnboardingRepository.StoredKeyDecides | Server/internal/argocd/infrastructure/onboarding_repository.go:140-158 | A confirmation that meets a stored key is a replay exactly when fingerprint and application both equal the stored ones; otherwise it is refused as a reused key and nothing is written. |
| OnboardingLaws.ValidationWrites | Server/internal/argocd/infrastructure/onboarding_repository.go:75-120 | Column by column the row a validation stores, and what it is refused for. |
| OnboardingLaws.ConfirmationWrites | Server/internal/argocd/infrastructure/onboarding_repository.go:123-129 | Column by column the row a confirmation stores, and when it is refused. |
| OnboardingLaws.FreshKeyWrites | Server/internal/argocd/infrastructure/onboarding_repository.go:132-173 | A new key is stored with its command exactly when the row enters Applying, and nothing else is written. |
| OnboardingLaws.CompletionWrites | Server/internal/argocd/infrastructure/onboarding_repository.go:176-181 | Column by column the row completion stores. |
| OnboardingLaws.CompletionCompletes | Server/internal/argocd/infrastructure/onboarding_repository.go:268-272 | The commands it completes, with the new version; every other command is untouched. |
| OnboardingLaws.ErrorWrites | Server/internal/argocd/infrastructure/onboarding_repository.go:184-210 | Only the error code and the version change, of an Applying row at the expected version. |
| OnboardingLaws.DriftWrites | Server/internal/argocd/infrastructure/reconciliation_repository.go:284-295 | The columns marking drift writes, on Managed rows with reasons only. |
| OnboardingCommands.DecimalInjective | Server/internal/argocd/application/command.go:75-82 | Distinct versions print differently. |
| OnboardingCommands.DecimalReadsBack | Server/internal/argocd/application/command.go:75-82 | A version's text reads back as the version and starts with no idle zero. |
| OnboardingCommands.CanonicalInjective | Server/internal/argocd/application/command.go:75-82 | The hashed text determines actor, application, operation and version, so equal fingerprints are equal requests. |
| OnboardingRuns.StepKeepsDb | Server/internal/argocd/infrastructure/onboarding_repository.go:75-277 | Every protocol step keeps the command invariant and only advances rows and commands. |
| OnboardingRuns.RowsAdvanceOverRun | Server/internal/argocd/infrastructure/onboarding_repository.go:159-166 | Along any run versions never go back, and an unchanged version means an unchanged row. |
| OnboardingRuns.RowFrozen | Server/internal/argocd/infrastructure/onboarding_repository.go:250-258 | A row with one version at both ends of an interval is the same row throughout: no ABA. |
| OnboardingRuns.ProcsAreGrounded | Server/internal/argocd/application/onboarding_service.go:177-217 | Every ticket an actor holds was an Applying row at that version when taken, and an acceptance rests on a later clean readback of its own. |
| OnboardingRuns.OnlyFinishManages | Server/internal/argocd/application/onboarding_service.go:212-216 | Only a closing transaction that accepts makes a row Managed, at the version its actor holds. |
| OnboardingRuns.ManagedOnlyAfterReadbackInSameEpisode | Server/internal/argocd/application/onboarding_service.go:191-217 | In every interleaving with crashes a row becomes Managed only after a clean readback taken inside the Applying episode that ends there. |
| OnboardingRuns.StaleTicketNeverFinishes | Server/internal/argocd/infrastructure/onboarding_repository.go:232-277 | An actor whose row left Applying after it was loaded changes nothing when it finishes. |
| OnboardingRuns.AtMostOneEntryPerKey | Server/internal/argocd/infrastructure/onboarding_repository.go:132-173 | For each actor and key at most one confirmation of a run enters Applying. |
| OnboardingRuns.AcceptedMeansApplying | Server/internal/argocd/infrastructure/onboarding_repository.go:132-173 | At every moment an Accepted confirmation's application is Applying and has no other Accepted one. |
| OnboardingRuns.CompletedRecordsManagedVersion | Server/internal/argocd/infrastructure/onboarding_repository.go:268-272 | A Completed command records a version at which the run reached Managed. |
| OnboardingRuns.ReplayReturnsManagedVersion | Server/internal/argocd/application/onboarding_service.go:160-165 | Every later replay of the same payload that reaches the reservation returns that recorded version and writes nothing. |
| OnboardingLaws.StoredKeyDecidesForGood | Server/internal/argocd/infrastructure/onboarding_repository.go:148-150 | From the moment a key is stored, at every later moment of any run a confirmation under it is a replay exactly when application and expected version are those of the stored request; any other is refused with no writes. |
| OnboardingProgress.ConfirmationCanComplete | Server/internal/argocd/application/onboarding_service.go:134-217 | The protocol is never stuck: after any run an idle actor can confirm an application that awaits it under an unused key, and when Argo CD answers as expected the application ends Managed two versions later with the command completed at that version. |
| OnboardingProgress.CanAwait | Server/internal/argocd/infrastructure/onboarding_repository.go:75-120 | A validation without issues makes any application wait for a confirmation that is neither Applying nor Managed. |
| OnboardingStates.StepMoves | Server/internal/argocd/infrastructure/onboarding_repository.go:75-277 | Every step moves every row along a legal transition and keeps its columns in line with its status. |
| OnboardingStates.ColumnsMatchOverRun | Server/migrations/20260902000500_create_application_onboarding.up.sql:4-25 | In every state of every run a row's issues, confirmation, management, drift and error columns are those of its status. |
| OnboardingStates.ConfirmationIsAttributed | Server/internal/argocd/infrastructure/onboarding_repository.go:159 | In every run, whoever a row says confirmed it did so, in the step and at the time the row says. |
| OnboardingStates.ReconciliationIsAStep | Server/internal/argocd/infrastructure/reconciliation_repository.go:244-303 | A committed reconciliation is exactly the drift step of the protocol, and marks drift only with reasons. |
| OnboardingService.FinishApplying | Server/internal/argocd/application/onboarding_service.go:191-217 | Finishes exactly when both reads are clean, a needed mutation succeeds and the row is still Applying at this version; otherwise records the stable code. |
| OnboardingService.OutcomeAccepts | Server/internal/argocd/application/onboarding_service.go:191-211 | The exact answers of Argo CD under which finishing is accepted. |
| OnboardingService.RecoverApplying | Server/internal/argocd/application/onboarding_service.go:177-189 | Finishes each listed row at the version read with the list and at its own clock reading; a failure does not stop later items, and none fails exactly when every item is accepted. |
| OnboardingService.FinishSettlesOneApplication | Server/internal/argocd/infrastructure/onboarding_repository.go:184-277 | Finishing an Applying row settles its row and its commands by its own answers. |
| OnboardingService.FinishTouchesOneApplication | Server/internal/argocd/application/onboarding_service.go:191-225 | Finishing one row leaves every other application's row and commands alone. |
| OnboardingService.RecoveryIsIsolated | Server/internal/argocd/application/onboarding_service.go:177-225 | After one pass each listed row is what its own answers make of it; a failing item changes only its own code and version. |
| OnboardingService.PassSucceedsIff | Server/internal/argocd/application/onboarding_service.go:177-189 | A pass reports no failure exactly when every listed row has become Managed. |
| OnboardingService.RecoveryFinishesEverything | Server/internal/argocd/application/onboarding_service.go:177-189 | With matching answers for every row, one pass leaves no row Applying and no confirmation Accepted. |
| OnboardingService.ConfirmIdempotent | Server/internal/argocd/application/onboarding_service.go:134-167 | Every outcome of an idempotent confirmation with the tables it leaves: hidden, not valid, refused, replayed, or entered once and finished. A used key with another application or expected version is refused as reused, whatever Argo CD answers. |
| OnboardingService.UsedKeyIsAnswered | Server/internal/argocd/application/onboarding_service.go:134-167 | A well-formed confirmation under a used key replays its outcome exactly for the same application and expected version. |
| OnboardingLaws.CommandMeans | Server/internal/argocd/application/command.go:57-83 | Which commands are well formed, a trimmed key of 1 to 255 characters and the version of its operation included, and what is stored for them. |
| OnboardingLaws.OutcomeCodes | Server/internal/argocd/application/onboarding_service.go:191-225 | The stable code of every way a finish fails, in the order the facts are looked at. |
| OnboardingLaws.ReplayReportsOutcome | Server/internal/argocd/application/onboarding_service.go:160-167 | The stored outcome of a confirmation is what its replay reports. |
| Reconciliation.IdentityKeyInjective | Server/internal/argocd/infrastructure/reconciliation_repository.go:324 | Identity keys tell identities apart when namespaces hold no slash. |
| Reconciliation.UniqueIdentitiesAreUnambiguous | Server/migrations/20260901000300_create_resource_catalog.up.sql:69 | The unique index on identities makes keys of active applications unambiguous. |
| Reconciliation.Repository.LoadCandidateKeys | Server/internal/argocd/infrastructure/reconciliation_repository.go:95-105 | The set of known candidate keys. |
| Reconciliation.Repository.LoadTracked | Server/internal/argocd/infrastructure/reconciliation_repository.go:107-117 | The map from identity key to active application. |
| Reconciliation.Repository.Reasons | Server/internal/argocd/infrastructure/reconciliation_repository.go:411-436 | The drift of the stored snapshot, or the missing application alone when it is not present. |
| Reconciliation.Repository.DetectManagedDrift | Server/internal/argocd/infrastructure/reconciliation_repository.go:244-303 | In whatever order rows are read, exactly the drifting managed rows are marked, once each. |
| Reconciliation.Repository.Reconcile | Server/internal/argocd/infrastructure/reconciliation_repository.go:34-93 | One transaction: the upserts of every value in order, the missing marks, the drift marks, and the counters. |
| ReconciliationRuns.CandidatesAfterValues | Server/internal/argocd/infrastructure/reconciliation_repository.go:177-203 | After the upserts a candidate exists exactly if it did or was labelled, and is present with this cycle's times and a higher version exactly if labelled. |
| ReconciliationRuns.SnapshotsAfterValues | Server/internal/argocd/infrastructure/reconciliation_repository.go:205-224 | The same for the snapshots of tracked applications. |
| ReconciliationRuns.LastSightingIsStored | Server/internal/argocd/infrastructure/reconciliation_repository.go:205-224 | The stored observation is that of the last sighting in the list. |
| ReconciliationRuns.PresentCandidatesAreTheLabelled | Server/internal/argocd/infrastructure/reconciliation_repository.go:226-233 | After a cycle the present candidates are exactly the labelled identities of the list. |
| ReconciliationRuns.CurrentSnapshotsAreTheObserved | Server/internal/argocd/infrastructure/reconciliation_repository.go:235-242 | After a cycle the snapshots without a missing time are exactly those of the active applications in the list. |
| ReconciliationRuns.NoRowIsLost | Server/internal/argocd/infrastructure/reconciliation_repository.go:34-93 | No candidate, snapshot or onboarding row is removed, and commands and catalog are untouched. |
| ReconciliationRuns.DriftIsExact | Server/internal/argocd/infrastructure/reconciliation_repository.go:244-303 | A row leaves Managed exactly when its stored snapshot drifts, with those reasons; no row still Managed drifts. |
| ReconciliationRuns.AcceptedReadbackStaysManaged | Server/internal/argocd/infrastructure/reconciliation_repository.go:423-435 | A cycle that shows what an accepted readback showed leaves the Managed row unchanged. |
| ReconciliationRuns.RunKeepsTokens | Server/internal/argocd/infrastructure/reconciliation_repository.go:226-242 | With distinct tokens, no stored row ever carries the token of a cycle to come. |
| ReconciliationRuns.CandidateMissingSinceNextCycle | Server/internal/argocd/infrastructure/reconciliation_repository.go:188-233 | Over any run a candidate is missing since the first cycle after its last labelled sighting, and not missing while sighted. |
| ReconciliationRuns.SnapshotMissingSinceNextCycle | Server/internal/argocd/infrastructure/reconciliation_repository.go:205-242 | The same for snapshots, whatever happens to the catalog between cycles. |
| ReconciliationRuns.RowsAreWhatWasSeen | Server/internal/argocd/infrastructure/reconciliation_repository.go:177-224 | A row exists exactly for what some cycle has seen. |
| ReconciliationRuns.CandidateFirstSeenIsKept | Server/internal/argocd/infrastructure/reconciliation_repository.go:188-203 | The time of the first labelled sighting stays on the row for good. |
| ReconciliationLaws.LabelledCandidateRow | Server/internal/argocd/infrastructure/reconciliation_repository.go:177-203 | The whole candidate row after a cycle that labels it: the columns of its last labelled value, its first sighting, this cycle's time and token, and a version that counts every labelled sighting. |
| ReconciliationLaws.UnlabelledCandidateRow | Server/internal/argocd/infrastructure/reconciliation_repository.go:226-233 | The whole row after a cycle that does not: a present one is marked missing now with the next version, any other is untouched. |
| ReconciliationLaws.SightedSnapshotRow | Server/internal/argocd/infrastructure/reconciliation_repository.go:205-224 | The whole snapshot row after a cycle that shows the application, its label flag included. |
| ReconciliationLaws.UnsightedSnapshotRow | Server/internal/argocd/infrastructure/reconciliation_repository.go:235-242 | The whole snapshot row after a cycle that does not show it. |
| ReconciliationLaws.StaysManagedIff | Server/internal/argocd/infrastructure/reconciliation_repository.go:244-303 | A managed row of the catalog stays exactly when its snapshot is current and still shows label, manual sync, project, destination and source of the mapping; otherwise it drifts now, at the next version. |
| ReconciliationLaws.CountersAreCardinalities | Server/internal/argocd/infrastructure/reconciliation_repository.go:45-83 | The counters are cardinalities: all values, the labelled ones, the labelled ones whose namespace and name no row had before, and those of active applications. |
| AccessRepository.Repository.MutateProtected | Server/internal/authorization/infrastructure/management_repository.go:449-492 | Commits the work, whose rows AccessLaws spells out operation by operation, exactly when a manager is left after it; any error leaves the tables as they were. |
| AccessRepository.Repository.DoWork | Server/internal/authorization/infrastructure/management_repository.go:174-427 | Each disable or revoke writes its rows as its statements do, the trigger of a disabled group included; the result is exactly the rows it is to turn off, and an error changes nothing. |
| AccessRepository.Repository.AddMembership | Server/internal/authorization/infrastructure/management_repository.go:216-268 | Reactivates or inserts the one manual membership, or changes nothing; at most one per user and group remains. |
| AccessRepository.Repository.CreateBindings | Server/internal/authorization/infrastructure/management_repository.go:292-339 | Inserts every binding in order or none. |
| AccessRepository.BindAllIffAllBindable | Server/internal/authorization/infrastructure/management_repository.go:292-354 | The transaction commits exactly when the roles are distinct, unbound and fit, and then adds exactly one active row a role. |
| AccessLaws.ManagersAreInTheRows | Server/internal/authorization/infrastructure/management_repository.go:470-478 | Who counts as a manager, by rows and columns. |
| AccessLaws.GuardCommitsIff | Server/internal/authorization/infrastructure/management_repository.go:449-492 | A guarded mutation whose work succeeds commits exactly when rows afterwards still make someone a manager. |
| AccessLaws.DisabledUserIsOff | Server/internal/authorization/infrastructure/management_repository.go:376-387 | After a committed disable the user was there and enabled and is now disabled; every other user and table is as it was. |
| AccessLaws.DisabledUserHasNothing | Server/internal/authorization/infrastructure/management_repository.go:376-387 | No grant and no deny of theirs stays live, and those of every other user are exactly as before. |
| AccessLaws.DisabledUserIsAllowedNothing | Server/internal/authorization/infrastructure/management_repository.go:376-387 | The engine allows them nothing at any scope. |
| AccessLaws.RevokedMembershipIsOff | Server/internal/authorization/infrastructure/management_repository.go:390-400 | After a committed revocation that manual membership is off and every other row as it was. |
| AccessLaws.RevokedMembershipGivesNothing | Server/internal/authorization/infrastructure/management_repository.go:390-400 | Exactly the grants and denies through it are gone. |
| AccessLaws.DisabledRoleIsOff | Server/internal/authorization/infrastructure/management_repository.go:402-412 | After a committed disable the role is inactive and every other row as it was. |
| AccessLaws.DisabledRoleGrantsNothing | Server/internal/authorization/infrastructure/management_repository.go:402-412 | Exactly the grants of bindings to it are gone; every deny stays. |
| AccessLaws.RevokedBindingIsOff | Server/internal/authorization/infrastructure/management_repository.go:414-428 | After a committed revocation the binding is off in the table it is found in first, and nothing else differs. |
| AccessLaws.RevokedBindingGrantsNothing | Server/internal/authorization/infrastructure/management_repository.go:414-428 | Exactly the grants of that binding are gone; every deny stays. |
| AccessLaws.DisabledGroupIsOff | Server/internal/authorization/infrastructure/management_repository.go:174-190 | A disabled group is disabled, its active bindings and denies go off with it, and every other row is as it was. |
| AccessLaws.AddedMembershipIsOn | Server/internal/authorization/infrastructure/management_repository.go:216-268 | When a membership can be added, and the one manual row that is then active. |
| AccessLaws.BindingRowsMean | Server/internal/authorization/infrastructure/management_repository.go:292-354 | The row a binding request stores for a role, and the row that stands in its way. |
| AccessLaws.LiftedDenyIsOff | Server/internal/authorization/infrastructure/management_repository.go:430-439 | A lifted deny is off and nothing else differs. |
| OidcGroups.Repository.SyncOidcGroups | Server/internal/authorization/infrastructure/oidc_group_repository.go:29-58 | The issuer's rows of the user end up on for exactly the mapped groups, missing ones inserted, all or nothing; equal lists write nothing. |
| OidcGroups.Repository.ActivateAll | Server/internal/authorization/infrastructure/oidc_group_repository.go:47-56 | The upserts in order succeed exactly when every target can be stored, and then give the synchronized table. |
| OidcGroups.NothingToSync | Server/internal/authorization/infrastructure/oidc_group_repository.go:39-41 | When the current groups are the targets, the full replacement would change nothing: the early return is sound. |
| OidcGroups.ListingsEqualIff | Server/internal/authorization/infrastructure/oidc_group_repository.go:39-41 | The ordered lists are equal exactly when they hold the same groups. |
| OidcGroups.SyncKeepsOneRow | Server/migrations/20260901000200_create_authorization_policy.up.sql:61-63 | A synchronization keeps one row an issuer, user and group. |
| AccessLaws.TargetsAreMapped | Server/internal/authorization/infrastructure/oidc_group_repository.go:60-74 | The groups a login is to be in: enabled ones for OIDC viewers that an active mapping of its issuer and one of its provider groups names. |
| AccessLaws.LoginStoresIff | Server/internal/authorization/infrastructure/oidc_group_repository.go:47-56 | A login stores its rows exactly when each of those groups has its row already or, for an existing user, can be given one under a free identifier. |
| AccessLaws.LoginRows | Server/internal/authorization/infrastructure/oidc_group_repository.go:29-58 | After a login every row of its issuer and user is on exactly for those groups, and every other row is as it was. |
| AccessLaws.LoginJoinsEveryTarget | Server/internal/authorization/infrastructure/oidc_group_repository.go:47-56 | After a login that stores its rows, the user has an active row of the issuer in every such group. |
| AccessContinuity.ManagersGrow | Server/internal/authorization/infrastructure/management_repository.go:470-478 | Tables that only grow keep every effective manager. |
| AccessContinuity.ApplyKeepsGrowth | Server/internal/authorization/infrastructure/management_repository.go:459-468 | Turning off the same rows on both sides keeps that order, so a count made earlier still holds at commit. |
| AccessContinuity.UnprotectedGrows | Server/internal/authorization/infrastructure/management_repository.go:158-373 | No unprotected mutation turns off or rewrites anything a manager rests on. |
| AccessContinuity.SyncGrows | Server/internal/authorization/infrastructure/oidc_group_repository.go:29-58 | A login's synchronization never touches a manual membership. |
| AccessContinuity.ManagersNeverVanish | Server/internal/authorization/infrastructure/management_repository.go:441-492 | In every run that starts with a manager every state has one: of any source when no OIDC synchronization is in the run, of manual source when platform-bound groups hold manual memberships only. |
| AccessContinuity.LoginKeepsManagersIff | Server/internal/authorization/infrastructure/oidc_group_repository.go:29-58 | Over the tables before a login that stores its rows: a counted manager is left after it, and after a transaction's rows go too, exactly when some manager path uses none of the issuer's rows of the user or leads through a target group, or a target group still enabled is bound to a live managing role and the user is enabled. |
| AccessContinuity.CountedManagersStayIff | Server/internal/authorization/infrastructure/management_repository.go:470-484 | With logins in the run, counted managers never vanish exactly when that condition holds before every login that stores its rows, in the tables and for the rows of a counted transaction. |
| AccessContinuity.RowsStayUnique | Server/migrations/20260901000200_create_authorization_policy.up.sql:57-63 | In every run a user has at most one manual membership row in a group and at most one of each issuer. |
| AccessContinuity.SyncCanRemoveTheLastCounted | Server/internal/authorization/infrastructure/oidc_group_repository.go:29-58 | Concrete tables and a login without provider groups that takes the last counted manager away: the claim for every run is false. |
| AccessContinuity.ExactlyTheseGrantsGo | Server/internal/authorization/infrastructure/management_repository.go:173-427 | Turning rows off takes away exactly the grants and denies that rest on one of them. |
| AccessContinuity.DisabledGroupGivesNothing | Server/migrations/20260909001600_deactivate_platform_bindings_with_group.up.sql:11-24 | Disabling a group takes away every grant and deny through it and none of another group. |
| AccessContinuity.DisabledGroupHasNoPolicies | Server/migrations/20260909001600_deactivate_platform_bindings_with_group.up.sql:11-24 | No binding or deny of a disabled group stays active. |
| AccessContinuity.EngineManagersAreManual | Server/internal/authorization/infrastructure/policy_adapter.go:92-102 | The engine authorizes a user for platform.manage exactly when a manual path makes it a manager. |
| AccessContinuity.EngineAlwaysHasManager | Server/internal/authorization/infrastructure/policy_adapter.go:92-102 | With manual memberships in platform-bound groups, the engine authorizes some enabled user in every state of every run, OIDC synchronization included. |
| AccessContinuity.EngineManagerIffManualPath | Server/internal/authorization/infrastructure/policy_adapter.go:92-102 | The engine has a manager exactly when some effective path is manual. |
| AccessContinuity.GuardKeepsEngineManagerIff | Server/internal/authorization/infrastructure/management_repository.go:470-484 | A guarded mutation leaves an engine manager exactly when some manual path of the tables before it uses none of the rows it turns off. |
| AccessContinuity.EngineManagersStayIff | Server/internal/authorization/infrastructure/management_repository.go:441-492 | In any run, the managers the engine grants never vanish, nor from what a counted transaction will leave, exactly when every count that passes has such a path; logins and later commits do not matter. |
| AccessContinuity.CountCanMissTheEngine | Server/internal/authorization/infrastructure/management_repository.go:470-478 | Concrete tables, with an OIDC member of a viewer-only group, where the count passes and the engine has no manager left: the count ignores the source. |
| AccessSnapshots.FilterAccessSnapshot | Server/internal/authorization/application/management_service.go:302-362 | The loops compute the narrowed snapshot. |
| AccessSnapshots.NarrowingKeepsClosure | Server/internal/authorization/application/management_service.go:302-362 | Every reference of a kept binding, deny or membership resolves to a kept row. |
| AccessSnapshots.NarrowingIsExact | Server/internal/authorization/application/management_service.go:302-362 | Kept users are exactly the members of kept groups, kept groups exactly the owned or referenced ones, and nothing of another project or of the platform is kept. |
| AccessSnapshots.NarrowingKeepsOrder | Server/internal/authorization/application/management_service.go:302-362 | Every list keeps its order. |
| AccessSnapshots.NarrowingIsMonotone | Server/internal/authorization/application/management_service.go:302-362 | More projects show more, in the same order. |
| AccessCommands.Load | Server/internal/authorization/application/management_service.go:220-277 | All records for platform managers, the narrowed records and managed projects for delegated ones, or the refusal. |
| AccessCommands.LoadDecides | Server/internal/authorization/application/management_commands.go:442-459 | The loaded standing and the command's owner decision agree for one caller and owner. |
| AccessCommands.UserDisableOfferedIffAccepted | Server/internal/authorization/application/management_commands.go:282-306 | A user lists disable exactly when the command passes its checks. |
| AccessCommands.GroupActionsOfferedIffAccepted | Server/internal/authorization/application/management_commands.go:83-138 | An enabled group lists disable and addMember exactly when those commands pass their checks. |
| AccessCommands.RoleDisableOfferedIffAccepted | Server/internal/authorization/application/management_commands.go:343-364 | A role lists disable exactly when the command passes its checks. |
| AccessCommands.MembershipRevokeOfferedIffAccepted | Server/internal/authorization/application/management_commands.go:309-340 | A membership lists revoke exactly when the command passes its checks. |
| CommandLaws.OwnerDecisionMeans | Server/internal/authorization/application/management_commands.go:442-459 | Platform managers manage every owner's rows; others those of an active project where the policy gives them the permission. |
| CommandLaws.LoadMeans | Server/internal/authorization/application/management_service.go:220-277 | The snapshot loads exactly for platform managers and whoever holds group or role management at some active project, with exactly those projects; a refusal hides or reports an evaluation error. |
| CommandLaws.NarrowedMeans | Server/internal/authorization/application/management_service.go:302-362 | List by list, by columns, the records that show in some projects. |
| CommandLaws.DisableUserMeans | Server/internal/authorization/application/management_commands.go:282-306 | Disabling a user is accepted exactly for platform managers, other than themselves, and an enabled user; and when each refusal is given. |
| CommandLaws.GroupCommandsMean | Server/internal/authorization/application/management_commands.go:83-138 | Adding members and disabling are accepted exactly by ownership and, for disabling, for groups that are not built in. |
| CommandLaws.DisableRoleMeans | Server/internal/authorization/application/management_commands.go:343-364 | Disabling a role is accepted exactly for an active role that is not built in, by ownership; and when each refusal is given. |
| CommandLaws.RevokeMembershipMeans | Server/internal/authorization/application/management_commands.go:309-340 | Revoking is accepted exactly for an active manual membership, by the ownership of its group; and when each refusal is given. |
| AccessBindings.RoleHasEffectivePermission | Server/internal/authorization/application/binding_compatibility.go:3-21 | Found exactly when some permission of the role means something at this level. |
| AccessBindings.ScopeOptions | Server/internal/authorization/application/access_queries.go:105-173 | The groups, roles and permissions offered at a resolved scope, or the refusal. |
| AccessBindings.OfferedPairsAreAccepted | Server/internal/authorization/application/management_commands.go:141-185 | The offered pairs are exactly those CreateBinding accepts, but for a project-owned role without owner. |
| AccessBindings.CreateBindingsCheck | Server/internal/authorization/application/management_commands.go:188-251 | A role list passes exactly when it has 1 to 20 distinct identifiers and each role passes alone. |
| CommandLaws.BindingAtPlatformMeans | Server/internal/authorization/application/management_commands.go:141-160 | Who binds what at the platform, by columns: a platform manager, an enabled platform group and an active platform role with a platform-only permission. |
| CommandLaws.BindingAtResourceMeans | Server/internal/authorization/application/management_commands.go:160-185 | Who binds what at a resource, by columns: which owners' groups a delegated manager may bind, never the project manager role, and a project's own role only there. |
| CommandLaws.CommandScopeMeans | Server/internal/authorization/application/management_commands.go:507-524 | The scope a request names, and exactly which requests name none. |
| CommandLaws.OptionsMean | Server/internal/authorization/application/access_queries.go:105-173 | Who is offered choices at a scope, and which permissions they see. |
| AccessPages.PageById | Server/internal/authorization/application/access_queries.go:347-382 | The page after the cursor's row, the first page, or a refused cursor. |
| AccessPages.WalkReturnsTheList | Server/internal/authorization/application/access_queries.go:347-382 | Following cursors over an unchanging list returns every row once, in order. |
| AccessLists.ListUsers | Server/internal/authorization/application/access_queries.go:176-193 | The page of the kept users in order, each with its offered actions, or the refusal of the load or of the cursor. |
| AccessLists.ListGroups | Server/internal/authorization/application/access_queries.go:197-216 | The page of the kept groups in order, each with its offered actions, or a refusal. |
| AccessLists.ListRoles | Server/internal/authorization/application/access_queries.go:220-236 | The page of the kept roles in order, each with its offered actions, or a refusal. |
| AccessLists.ListMemberships | Server/internal/authorization/application/access_queries.go:240-267 | The page of the kept memberships in order, each with its group's and user's names and its offered actions, or a refusal. |
| AccessLists.UserPagesShowEachOnce | Server/internal/authorization/application/access_queries.go:176-193 | End to end over a fixed policy state: following the cursors of the user list shows every kept user once, in order, with its actions. |
| AccessLists.GroupPagesShowEachOnce | Server/internal/authorization/application/access_queries.go:197-216 | The same for groups. |
| AccessLists.RolePagesShowEachOnce | Server/internal/authorization/application/access_queries.go:220-236 | The same for roles. |
| AccessLists.MembershipPagesShowEachOnce | Server/internal/authorization/application/access_queries.go:240-267 | The same for memberships, with their names. |
| EdgeIds.EdgeIdInjective | Server/internal/argocd/application/runtime_topology.go:164-170 | Edges of resources with plain keys have equal identifiers only when both ends are equal. |
| Topology.Projection.Add | Server/internal/argocd/application/runtime_topology.go:164-170 | Appends an edge unless its identifier is there. |
| Topology.Projection.AddReferenceEdges | Server/internal/argocd/application/runtime_topology.go:85-98 | Adds the edges of references with exactly one match and notes the unresolved ones. |
| Topology.Projection.AddSelectorEdges | Server/internal/argocd/application/runtime_topology.go:100-109 | Adds an edge to each selected resource and notes a selector without any. |
| Topology.SortedIsSorted | Server/internal/argocd/application/runtime_topology.go:172-176 | Sorting by identifier gives the same edges strictly ascending. |
| Topology.BuildRuntimeTopology | Server/internal/argocd/application/runtime_service.go:234-246 | The bounded nodes, bounded sorted edges, warnings and partial flag of a view. |
| TopologyLaws.ResolvesIffOneMatch | Server/internal/argocd/application/runtime_topology.go:91-115 | A reference resolves exactly when one resource matches it. |
| TopologyLaws.CandidatesAreJustified | Server/internal/argocd/application/runtime_topology.go:54-109 | The projected edges are exactly those a parent, a uniquely resolved reference or a selector justifies. |
| TopologyLaws.EdgesAreSound | Server/internal/argocd/application/runtime_service.go:234-246 | At most 500 nodes and 1000 edges, strictly sorted, every edge justified with both ends among the nodes. |
| TopologyLaws.WarningsExplainPartial | Server/internal/argocd/application/runtime_topology.go:34-52 | A view is partial exactly when a warning says nodes or edges were cut or evidence stayed unresolved, and each warning appears exactly when its fact holds. |
| TopologyLaws.UnpartialIsComplete | Server/internal/argocd/application/runtime_service.go:234-246 | A view that is not partial shows every resource and exactly the justified edges. |
| TopologyLinks.LabelsMatchMeans | Server/internal/argocd/application/runtime_topology.go:135-145 | Labels match exactly when both are given and every label asked for is there with its value, or asked for with the empty text and missing. |
| TopologyLinks.RestrictionsMean | Server/internal/argocd/application/runtime_topology.go:147-157 | Nameless references restrict a selector: with any, one of them must fit the resource column by column. |
| TopologyLinks.JustifiedIsLinked | Server/internal/argocd/application/runtime_topology.go:54-133 | Justification by what the resources report, column by column: a shown parent, a named reference that fits this node and no other, or a selector. |
| TopologyLinks.EdgesAreLinks | Server/internal/argocd/application/runtime_service.go:234-246 | Every edge of a view stands for such a link between its nodes, the first 500; at most 1000 in the order of their identifiers. |
| TopologyLinks.EdgeLimitMeans | Server/internal/argocd/application/runtime_service.go:234-246 | Edges are reported as cut exactly when some link is not shown. |
| TopologyLinks.WarningsAreInTheResources | Server/internal/argocd/application/runtime_topology.go:34-52 | The other warnings, each exactly when the resources leave that open, and what makes a view partial. |

## Left out

- Everything under Web, and the bootstrap, configuration, lifecycle, logging and migration wiring.
- The Argo CD client: its calls are answers given to the model; nothing is said about their transport.
- Decoding and encoding of JSON metadata, re-encoding of a string cut inside a code point included: function parameters.
- PostgreSQL, GORM and Casbin themselves: row locks and isolation levels are not modelled; transactions are atomic steps
  and the continuity lock is a holder. The interleavings allowed between a count and its commit include every one the
  row lock on the revision would forbid.
- Audit and outbox appends inside transactions, event payloads and log fields.
- Construction and validation of permission names: the permissions the services use are constants.
- Error wrapping: errors are told apart as far as callers tell them apart.
- DryRun and the plain Confirm service methods: they are the first steps of ConfirmIdempotent; their transactions are
  steps of the runs.
- The command repository's Reserve and Complete, which the onboarding service does not use.
- Loading a recovery target that is missing: the source then gives up the whole pass before finishing any row.
- Filter autocomplete, membership candidates, the binding and deny lists with their revoke commands, creation of groups,
  roles and denies at the service level, and permission delegation.
- How labels of audit roots are put together and sorted, and search and status matching, which is an arbitrary test
  here.
- The service step before a synchronization that trims the issuer and trims, deduplicates and sorts the provider groups.
- Who changes the table of provider group mappings: between other steps of a run it may become any table.
- Deployment plans, executors, job queues and notification listeners.
- Revoked sessions of a disabled user, and the name and owner uniqueness of groups and roles.
- Health, sync status, operation and revision columns of candidates and snapshots, which no modelled decision reads.
- Runtime events, pod logs and manifest redaction.
