/** What a page of the audit list shows, in terms of the request and of rows and columns alone. */
module AuditLaws {
  import opened Basics
  import opened Scopes
  import opened PolicyTables
  import opened PolicyDecision
  import opened Sql
  import opened AuditVisibility
  import opened AuditCapabilities
  import opened AuditService
  import opened Cursor
  import opened AuditPages
  import opened AuditList
  import opened PolicyLaws

  // ---------------------------------------------------------------------------------------------
  // What was asked for
  // ---------------------------------------------------------------------------------------------

  function WindowEnd(filter: QueryFilter, now: int): int {
    if filter.occurredTo != ZERO_TIME then filter.occurredTo else now
  }

  function WindowStart(filter: QueryFilter, now: int): int {
    if filter.occurredFrom != ZERO_TIME then filter.occurredFrom else WindowEnd(filter, now) - 86400
  }

  /** The three ways to ask for an actor: the system, an identifier, or a display name in any case. */
  ghost predicate ByActor(text: TextRules, asked: string, actorId: Option<Uuid>, name: Option<string>) {
    || (text.foldsToSystem(asked) && actorId == None)
    || (!text.foldsToSystem(asked) && text.parseUuid(asked) != None && text.parseUuid(asked) == actorId)
    || (&& !text.foldsToSystem(asked) && text.parseUuid(asked) == None
        && name != None && text.lower(name.value) == text.lower(asked))
  }

  /** The row was made in the window and has each of the texts and the actor that were asked for. */
  ghost predicate Asked(text: TextRules, filter: QueryFilter, now: int, e: EventRow) {
    && WindowStart(filter, now) <= e.occurredAt && e.occurredAt < WindowEnd(filter, now)
    && text.trim(filter.action) in ["", e.action]
    && text.trim(filter.resourceType) in ["", e.resourceType]
    && text.trim(filter.requestId) in ["", e.requestId]
    && (text.trim(filter.actor) == "" || ByActor(text, text.trim(filter.actor), e.actorId, e.actorDisplayName))
  }

  /** A request is within bounds: at most 90 days, 100 rows and 255 characters a text, at a proper scope. */
  ghost predicate InBounds(text: TextRules, filter: QueryFilter, now: int) {
    && WindowStart(filter, now) < WindowEnd(filter, now) <= WindowStart(filter, now) + 7776000
    && 0 <= filter.limit <= 100 && IsScope(filter.scope)
    && |text.trim(filter.action)| <= 255 && |text.trim(filter.resourceType)| <= 255
    && |text.trim(filter.actor)| <= 255 && |text.trim(filter.requestId)| <= 255
  }

  /** A request normalizes exactly within bounds; it then keeps what was asked for, 20 rows a page by default. */
  lemma NormalizesWhatWasAsked(text: TextRules, filter: QueryFilter, now: int, e: EventRow)
    ensures Normalize(text, filter, now).Ok? <==> InBounds(text, filter, now)
    ensures var n := Normalize(text, filter, now);
            n.Ok? ==> && n.value.scope == filter.scope
                      && n.value.limit == (if filter.limit == 0 then 20 else filter.limit)
                      && (FilterKeeps(text, n.value, e) <==> Asked(text, filter, now, e))
  {
    ScopesAreThese(filter.scope);
  }

  // ---------------------------------------------------------------------------------------------
  // What may be seen
  // ---------------------------------------------------------------------------------------------

  /** The row's own columns lie under a resource scope. */
  ghost predicate UnderRoot(root: Scope, e: EventRow) {
    && e.resolution == Resolved
    && e.organizationId == Some(root.organizationId) && e.projectId == Some(root.projectId)
    && (root.environmentId != 0 ==> e.environmentId == Some(root.environmentId))
    && (root.applicationId != 0 ==> e.applicationId == Some(root.applicationId))
  }

  /** An active deny of viewing, of an enabled group this enabled user is an active member of, covers the row. */
  ghost predicate RowIsDenied(t: Tables, m: Uuid, d: Uuid, user: Uuid, e: EventRow) {
    && IsMember(t, m, user)
    && d in t.denies && t.denies[d].active && t.denies[d].groupId == t.memberships[m].groupId
    && t.denies[d].permission == "audit.view"
    && e.organizationId == Some(t.denies[d].organizationId) && e.projectId == Some(t.denies[d].projectId)
    && (t.denies[d].environmentId == None || e.environmentId == t.denies[d].environmentId)
    && (t.denies[d].applicationId == None || e.applicationId == t.denies[d].applicationId)
  }

  ghost predicate MaySee(t: Tables, user: Uuid, root: Scope, e: EventRow) {
    root.kind.PlatformKind? || (UnderRoot(root, e) && !exists m, d :: RowIsDenied(t, m, d, user, e))
  }

  lemma ScopeOfRow(root: Scope, e: EventRow)
    requires IsScope(root) && !root.kind.PlatformKind? && DownwardComplete(e)
    ensures UnderRoot(root, e) <==> AuthorizationScope(e).Some? && root.Contains(AuthorizationScope(e).value)
    ensures UnderRoot(root, e) ==>
              var s := AuthorizationScope(e).value;
              && IsScope(s) && s.kind != PlatformKind
              && e.organizationId == Some(s.organizationId) && e.projectId == Some(s.projectId)
              && e.environmentId == (if s.environmentId == 0 then None else Some(s.environmentId))
              && e.applicationId == (if s.applicationId == 0 then None else Some(s.applicationId))
  {
  }

  lemma DenyOfRow(t: Tables, m: Uuid, d: Uuid, user: Uuid, root: Scope, e: EventRow)
    requires IsScope(root) && !root.kind.PlatformKind? && DownwardComplete(e) && WellFormedDenies(t)
    requires UnderRoot(root, e)
    ensures AuthorizationScope(e).Some?
    ensures RowsDeny(t, m, d, user, VIEW, AuthorizationScope(e).value) <==> RowIsDenied(t, m, d, user, e)
  {
    ScopeOfRow(root, e);
    if d in t.denies {
      assert WellFormedRow(ScopeRowOf(t.denies[d]));
    }
  }

  /** Under a root the caller may view, they are to see what lies under it by its columns and no deny covers. */
  lemma VisibleIsInTheRows(t: Tables, caller: Principal, text: TextRules, n: QueryFilter, e: EventRow)
    requires WellFormedDenies(t) && DownwardComplete(e) && Allowed(EffectivePolicy(t), caller, VIEW, n.scope)
    ensures VisibleTo(t, caller, text, n)(e) <==> FilterKeeps(text, n, e) && MaySee(t, caller.userId, n.scope, e)
  {
    ScopesAreThese(n.scope);
    if !n.scope.kind.PlatformKind? {
      ScopeOfRow(n.scope, e);
      if UnderRoot(n.scope, e) {
        var s := AuthorizationScope(e).value;
        ScopesAreThese(s);
        AllowIsInheritedUnlessDenied(t, caller, VIEW, n.scope, s);
        DeniesAreInTheRows(t, caller.userId, VIEW, s);
        forall m, d
          ensures RowsDeny(t, m, d, caller.userId, VIEW, s) <==> RowIsDenied(t, m, d, caller.userId, e)
        {
          DenyOfRow(t, m, d, caller.userId, n.scope, e);
        }
      }
    }
  }

  // ---------------------------------------------------------------------------------------------
  // What a page shows
  // ---------------------------------------------------------------------------------------------

  /** An item shows the columns of a row; whether it carries metadata is whether that is not the empty object. */
  ghost predicate Shows(item: EventSummary, e: EventRow) {
    && item.id == e.id && item.occurredAt == e.occurredAt && item.actorId == e.actorId
    && item.actorDisplayName == (if e.actorDisplayName == None then "" else e.actorDisplayName.value)
    && item.action == e.action && item.resourceType == e.resourceType && item.resourceId == e.resourceId
    && item.organizationId == e.organizationId && item.projectId == e.projectId
    && item.environmentId == e.environmentId && item.applicationId == e.applicationId
    && item.resolution == e.resolution && item.requestId == e.requestId
    && (item.hasMetadata <==> e.metadata != "{}")
  }

  lemma SummaryShows(e: EventRow)
    ensures Shows(Summary(e), e)
  {
  }

  /** Newer first, and of one time the greater identifier first. */
  ghost predicate Newer(time: int, id: Uuid, otherTime: int, otherId: Uuid) {
    time > otherTime || (time == otherTime && id > otherId)
  }

  /** The row comes after the place a cursor marks; without a cursor every row does. */
  ghost predicate After(position: Option<CursorPosition>, e: EventRow) {
    position != None ==> Newer(position.value.occurredAt, position.value.eventId, e.occurredAt, e.id)
  }

  ghost predicate NewestFirst(items: seq<EventSummary>) {
    forall i, j | 0 <= i < j < |items| :: Newer(items[i].occurredAt, items[i].id, items[j].occurredAt, items[j].id)
  }

  /** The rows that belong to a request. */
  ghost function Due(t: Tables, p: Platform, caller: Principal, filter: QueryFilter, now: int,
                     position: Option<CursorPosition>): EventRow -> bool {
    (e: EventRow) =>
      Asked(p.text, filter, now, e) && MaySee(t, caller.userId, filter.scope, e) && After(position, e)
  }

  /** Where the cursor sent marks a place; no cursor marks none. */
  ghost function Place(p: Platform, filter: QueryFilter, cursor: string, now: int): Option<CursorPosition> {
    var n := Normalize(p.text, filter, now);
    if n.Err? then None
    else
      var decoded := p.codec.Decode(cursor, p.hash(FieldsOf(p.text, n.value)));
      if decoded.Err? then None else decoded.value
  }

  lemma VisibleIsDue(t: Tables, p: Platform, caller: Principal, filter: QueryFilter, now: int,
                     position: Option<CursorPosition>, e: EventRow)
    requires WellFormedDenies(t) && DownwardComplete(e) && Normalize(p.text, filter, now).Ok?
    requires Allowed(EffectivePolicy(t), caller, VIEW, filter.scope)
    ensures VisibleTo(t, caller, p.text, Normalize(p.text, filter, now).value)(e) && BeforePosition(e, position)
            <==> Due(t, p, caller, filter, now, position)(e)
  {
    NormalizesWhatWasAsked(p.text, filter, now, e);
    VisibleIsInTheRows(t, caller, p.text, Normalize(p.text, filter, now).value, e);
  }

  /** A test after a position agrees with another on every row there is. */
  ghost predicate SameTest(table: set<EventRow>, keep: EventRow -> bool, position: Option<CursorPosition>,
                           due: EventRow -> bool) {
    forall e <- table :: keep(e) && BeforePosition(e, position) <==> due(e)
  }

  lemma SameTestSameRows(table: set<EventRow>, keep: EventRow -> bool, position: Option<CursorPosition>,
                         due: EventRow -> bool, count: nat, rows: seq<EventRow>)
    requires SameTest(table, keep, position, due) && IsQueryResult(table, keep, position, count, rows)
    ensures IsQueryResult(table, due, None, count, rows)
  {
  }

  lemma VisibleRowsAreDue(t: Tables, table: set<EventRow>, p: Platform, caller: Principal, filter: QueryFilter,
                          now: int, position: Option<CursorPosition>)
    requires WellFormedDenies(t) && AncestryIsComplete(table) && Normalize(p.text, filter, now).Ok?
    requires Allowed(EffectivePolicy(t), caller, VIEW, filter.scope)
    ensures SameTest(table, VisibleTo(t, caller, p.text, Normalize(p.text, filter, now).value), position,
                     Due(t, p, caller, filter, now, position))
  {
    forall e | e in table
      ensures VisibleTo(t, caller, p.text, Normalize(p.text, filter, now).value)(e) && BeforePosition(e, position)
              <==> Due(t, p, caller, filter, now, position)(e)
    {
      VisibleIsDue(t, p, caller, filter, now, position, e);
    }
  }

  /** Every item shows a due row, and a due row is shown or the page is full and the row older than its last item. */
  ghost predicate ShowsDueRows(table: set<EventRow>, due: EventRow -> bool, limit: nat, page: QueryPage) {
    && |page.items| <= limit && NewestFirst(page.items)
    && (forall item <- page.items :: exists e <- table :: due(e) && Shows(item, e))
    && (forall e <- table :: due(e) ==> IsShown(page.items, e) || (page.hasMore && OlderThanLast(page.items, e)))
    && (page.hasMore ==> |page.items| == limit && exists e <- table :: due(e) && OlderThanLast(page.items, e))
  }

  ghost predicate IsShown(items: seq<EventSummary>, e: EventRow) {
    exists item <- items :: Shows(item, e)
  }

  ghost predicate OlderThanLast(items: seq<EventSummary>, e: EventRow) {
    |items| > 0 && Newer(items[|items| - 1].occurredAt, items[|items| - 1].id, e.occurredAt, e.id)
  }

  lemma CutRowsAreShown(table: set<EventRow>, due: EventRow -> bool, limit: nat, rows: seq<EventRow>, page: QueryPage)
    requires limit > 0 && IsQueryResult(table, due, None, limit + 1, rows)
    requires Summarizes(page.items, PageRows(rows, limit)) && (page.hasMore <==> |rows| > limit)
    ensures ShowsDueRows(table, due, limit, page)
  {
    var cut := PageRows(rows, limit);
    forall item | item in page.items
      ensures exists e <- table :: due(e) && Shows(item, e)
    {
      var k :| 0 <= k < |page.items| && page.items[k] == item;
      SummaryShows(cut[k]);
      assert cut[k] in rows;
    }
    forall e | e in table && due(e)
      ensures IsShown(page.items, e) || (page.hasMore && OlderThanLast(page.items, e))
    {
      RowOrLater(rows, limit, e);
      if e in cut {
        var k :| 0 <= k < |cut| && cut[k] == e;
        SummaryShows(e);
        assert page.items[k] in page.items;
      }
    }
    if page.hasMore {
      assert rows[limit] in rows && OlderThanLast(page.items, rows[limit]);
    }
  }

  lemma PageOfSameTest(table: set<EventRow>, keep: EventRow -> bool, due: EventRow -> bool, codec: Codec,
                       fingerprint: string, limit: nat, position: Option<CursorPosition>, page: QueryPage,
                       rows: seq<EventRow>)
    requires limit > 0 && SameTest(table, keep, position, due)
    requires IsPage(table, keep, codec, fingerprint, limit, position, page, rows)
    ensures ShowsDueRows(table, due, limit, page)
  {
    SameTestSameRows(table, keep, position, due, limit + 1, rows);
    CutRowsAreShown(table, due, limit, rows, page);
  }

  /**
   Main theorem. A page holds, newest first, exactly the next rows the request asked for that the caller may see: each
   item shows the columns of such a row, and such a row is on the page unless the page is full and more is announced.
   */
  lemma PageIsInTheRows(t: Tables, table: set<EventRow>, p: Platform, caller: Principal, filter: QueryFilter,
                        cursor: string, now: int, page: QueryPage, rows: seq<EventRow>)
    requires WellFormedDenies(t) && AncestryIsComplete(table) && Accepted(t, p, caller, filter, cursor, now)
    requires IsListPage(t, table, p, caller, filter, cursor, now, page, rows)
    ensures ShowsDueRows(table, Due(t, p, caller, filter, now, Place(p, filter, cursor, now)),
                         if filter.limit == 0 then 20 else filter.limit, page)
  {
    var n := Normalize(p.text, filter, now).value;
    var position := Place(p, filter, cursor, now);
    VisibleRowsAreDue(t, table, p, caller, filter, now, position);
    PageOfSameTest(table, VisibleTo(t, caller, p.text, n), Due(t, p, caller, filter, now, position), p.codec,
                   p.hash(FieldsOf(p.text, n)), n.limit, position, page, rows);
  }

  /** A request is answered exactly within bounds, for a caller the rows allow its scope, with a cursor of its own. */
  lemma AnsweredIff(t: Tables, p: Platform, caller: Principal, filter: QueryFilter, cursor: string, now: int)
    requires WellFormedBindings(t) && WellFormedDenies(t)
    ensures Accepted(t, p, caller, filter, cursor, now) <==>
            && InBounds(p.text, filter, now) && RowsAllow(t, caller, "audit.view", filter.scope)
            && p.codec.Decode(cursor, p.hash(FieldsOf(p.text, Normalize(p.text, filter, now).value))).Ok?
    ensures Refusal(t, p, caller, filter, now)
            == (if !InBounds(p.text, filter, now) then Refused(InvalidFilter)
                else if caller.userId == 0 then Refused(NotAuthorizable)
                else if !RowsAllow(t, caller, "audit.view", filter.scope) then Refused(Forbidden)
                else BadCursor)
  {
    var anyRow := EventRow(0, 0, None, None, None, None, None, None, Resolved, "", "", "", "", "");
    NormalizesWhatWasAsked(p.text, filter, now, anyRow);
    DecisionIsInTheRows(t, caller, VIEW, filter.scope);
  }

  // ---------------------------------------------------------------------------------------------
  // Opening one event
  // ---------------------------------------------------------------------------------------------

  /** The resource scope an event's own columns name. */
  ghost predicate IsOwnScope(e: EventRow, s: Scope) {
    && e.resolution == Resolved && s.kind != PlatformKind && IsScope(s)
    && e.organizationId == Some(s.organizationId) && e.projectId == Some(s.projectId)
    && e.environmentId == (if s.environmentId == 0 then None else Some(s.environmentId))
    && e.applicationId == (if s.applicationId == 0 then None else Some(s.applicationId))
  }

  lemma OwnScopeIs(e: EventRow, s: Scope)
    requires DownwardComplete(e)
    ensures IsOwnScope(e, s) <==> AuthorizationScope(e) == Some(s) && s.kind != PlatformKind
  {
  }

  /** An event opens to a caller whom the rows allow viewing the platform, or the scope its columns name. */
  lemma OpensIffRows(t: Tables, caller: Principal, e: EventRow)
    requires WellFormedBindings(t) && WellFormedDenies(t) && DownwardComplete(e)
    ensures MayOpen(EffectivePolicy(t), caller, e) <==>
            (RowsAllow(t, caller, "audit.view", Scope(0, 0, 0, 0, PlatformKind))
             || exists s :: IsOwnScope(e, s) && RowsAllow(t, caller, "audit.view", s))
  {
    DecisionIsInTheRows(t, caller, VIEW, PLATFORM_SCOPE);
    if AuthorizationScope(e).Some? {
      var own := AuthorizationScope(e).value;
      OwnScopeIs(e, own);
      DecisionIsInTheRows(t, caller, VIEW, own);
    }
    forall s | IsOwnScope(e, s)
      ensures AuthorizationScope(e) == Some(s)
    {
      OwnScopeIs(e, s);
    }
  }
}
