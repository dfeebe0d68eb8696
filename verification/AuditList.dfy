/** The audit list use case from request to page: normalization, authorization, visibility, cursor and query. */
module AuditList {
  import opened Basics
  import opened Scopes
  import opened PolicyTables
  import opened PolicyDecision
  import opened Sql
  import opened AuditVisibility
  import opened AuditService
  import opened Cursor
  import opened AuditPages
  import opened AuditQuery

  datatype ListError = Refused(error: AuditError) | BadCursor

  datatype QueryPage = QueryPage(items: seq<EventSummary>, next: string, hasMore: bool)

  /** The parts of the platform a list request relies on. The query takes its WHERE clause and its LIMIT. */
  datatype Platform = Platform(
    text: TextRules, hash: FingerprintFields -> string, codec: Codec,
    query: (seq<Condition>, nat) -> seq<EventRow>)

  /** What the visibility clauses and the filter keep. */
  function KeptBy(text: TextRules, f: QueryFilter, visibility: seq<Condition>): EventRow -> bool {
    (e: EventRow) => Keeps(visibility, e) && FilterKeeps(text, f, e)
  }

  function Where(where: seq<Condition>): EventRow -> bool {
    (e: EventRow) => Keeps(where, e)
  }

  /** The database answers each query from this table, newest rows first. */
  ghost predicate Answers(p: Platform, table: set<EventRow>) {
    forall where: seq<Condition>, count: nat ::
      IsQueryResult(table, Where(where), None, count, p.query(where, count))
  }

  /** A WHERE clause that ends in the keyset answers with the kept rows after the position. */
  lemma WhereIsPage(table: set<EventRow>, where: seq<Condition>, visibility: seq<Condition>, text: TextRules,
                    f: QueryFilter, position: Option<CursorPosition>, count: nat, rows: seq<EventRow>)
    requires Narrows(where, visibility, (e: EventRow) => FilterKeeps(text, f, e) && BeforePosition(e, position))
    requires IsQueryResult(table, Where(where), None, count, rows)
    ensures IsQueryResult(table, KeptBy(text, f, visibility), position, count, rows)
  {
    forall e: EventRow
      ensures Where(where)(e) <==> KeptBy(text, f, visibility)(e) && BeforePosition(e, position)
    {
    }
  }

  /** What a caller is to see: rows the filter keeps, under the requested scope, that the engine lets them view. */
  ghost function VisibleTo(t: Tables, caller: Principal, text: TextRules, f: QueryFilter): EventRow -> bool {
    (e: EventRow) =>
      FilterKeeps(text, f, e)
      && (f.scope.kind.PlatformKind?
          || (AuthorizationScope(e).Some? && f.scope.Contains(AuthorizationScope(e).value)
              && Allowed(EffectivePolicy(t), caller, VIEW, AuthorizationScope(e).value)))
  }

  /** Steps through the defaults and bounds in the order the request is normalized. */
  method NormalizeFilter(text: TextRules, filter: QueryFilter, now: int) returns (r: Result<QueryFilter, AuditError>)
    ensures r == Normalize(text, filter, now)
  {
    var f := filter;
    if f.occurredTo == ZERO_TIME {
      f := f.(occurredTo := now);
    }
    if f.occurredFrom == ZERO_TIME {
      f := f.(occurredFrom := f.occurredTo - DEFAULT_QUERY_RANGE);
    }
    if !(f.occurredFrom < f.occurredTo) || f.occurredTo - f.occurredFrom > MAXIMUM_QUERY_RANGE {
      return Err(InvalidFilter);
    }
    if f.limit == 0 {
      f := f.(limit := DEFAULT_LIMIT);
    }
    if f.limit < 1 || f.limit > MAXIMUM_LIMIT {
      return Err(InvalidFilter);
    }
    if !f.scope.Valid() {
      return Err(InvalidFilter);
    }
    f := f.(action := text.trim(f.action), resourceType := text.trim(f.resourceType));
    f := f.(actor := text.trim(f.actor), requestId := text.trim(f.requestId));
    if |f.action| > 255 || |f.resourceType| > 255 || |f.actor| > 255 || |f.requestId| > 255 {
      return Err(InvalidFilter);
    }
    return Ok(f);
  }

  /** Normalizing a normalized filter changes nothing, whenever it is done: only an empty window end moves. */
  lemma NormalizationIsStable(text: TextRules, f: QueryFilter, now: int, later: int)
    requires Normalize(text, f, now).Ok? && now != ZERO_TIME
    requires forall s: string :: text.trim(text.trim(s)) == text.trim(s)
    ensures Normalize(text, Normalize(text, f, now).value, later) == Normalize(text, f, now)
    ensures var n := Normalize(text, f, now).value;
            n.occurredFrom < n.occurredTo <= n.occurredFrom + MAXIMUM_QUERY_RANGE && 1 <= n.limit <= MAXIMUM_LIMIT
                && n.scope.Valid()
  {
  }

  /** Two tests agree on every row there is. */
  ghost predicate Agree(table: set<EventRow>, keep: EventRow -> bool, visible: EventRow -> bool) {
    forall e <- table :: keep(e) == visible(e)
  }

  ghost predicate AncestryIsComplete(table: set<EventRow>) {
    forall e <- table :: DownwardComplete(e)
  }

  lemma SameRowsSameResult(table: set<EventRow>, keep: EventRow -> bool, visible: EventRow -> bool,
                           position: Option<CursorPosition>, count: nat, rows: seq<EventRow>)
    requires IsQueryResult(table, keep, position, count, rows) && Agree(table, keep, visible)
    ensures IsQueryResult(table, visible, position, count, rows)
  {
  }

  /** The projected predicate keeps, of a table's rows, exactly those the caller is to see. */
  lemma ProjectionIsVisibility(t: Tables, caller: Principal, denyRows: seq<DenyScopeRow>, v: VisibilityConstraint,
                               text: TextRules, f: QueryFilter, e: EventRow)
    requires WellFormedDenies(t) && IsDenyQueryResult(t, caller.userId, denyRows) && IsResolution(v.root, denyRows, v)
    requires v.root == f.scope && f.scope.Valid() && DownwardComplete(e)
    requires Allowed(EffectivePolicy(t), caller, VIEW, f.scope)
    ensures VisibilityConditions(v).Ok?
    ensures KeptBy(text, f, VisibilityConditions(v).value)(e) == VisibleTo(t, caller, text, f)(e)
  {
    if !f.scope.kind.PlatformKind? {
      SqlAgreesWithEngine(t, caller, denyRows, v, e);
    }
  }

  lemma ConditionsExist(t: Tables, caller: Principal, denyRows: seq<DenyScopeRow>, v: VisibilityConstraint)
    requires WellFormedDenies(t) && IsDenyQueryResult(t, caller.userId, denyRows) && IsResolution(v.root, denyRows, v)
             && v.root.Valid()
    ensures VisibilityConditions(v).Ok?
  {
    if !v.root.kind.PlatformKind? {
      DeniedScopesAreValid(t, caller.userId, denyRows, v);
      DeniedConditionsOk(v.denied);
    }
  }

  lemma ProjectionsAgree(t: Tables, table: set<EventRow>, caller: Principal, denyRows: seq<DenyScopeRow>,
                         v: VisibilityConstraint, text: TextRules, f: QueryFilter)
    requires WellFormedDenies(t) && IsDenyQueryResult(t, caller.userId, denyRows) && IsResolution(v.root, denyRows, v)
    requires v.root == f.scope && f.scope.Valid() && Allowed(EffectivePolicy(t), caller, VIEW, f.scope)
    requires VisibilityConditions(v).Ok? && AncestryIsComplete(table)
    ensures Agree(table, KeptBy(text, f, VisibilityConditions(v).value), VisibleTo(t, caller, text, f))
  {
    forall e | e in table
      ensures KeptBy(text, f, VisibilityConditions(v).value)(e) == VisibleTo(t, caller, text, f)(e)
    {
      ProjectionIsVisibility(t, caller, denyRows, v, text, f, e);
    }
  }

  /** How a request ends before any row is read. */
  ghost predicate Accepted(t: Tables, p: Platform, caller: Principal, filter: QueryFilter, cursor: string, now: int) {
    var n := Normalize(p.text, filter, now);
    && n.Ok? && Allowed(EffectivePolicy(t), caller, VIEW, n.value.scope)
    && p.codec.Decode(cursor, p.hash(FieldsOf(p.text, n.value))).Ok?
  }

  /** A refused request names the first thing wrong: its bounds, its caller, the permission, else its cursor. */
  ghost function Refusal(t: Tables, p: Platform, caller: Principal, filter: QueryFilter, now: int): ListError {
    var n := Normalize(p.text, filter, now);
    if n.Err? then Refused(InvalidFilter)
    else if caller.userId == NIL_UUID then Refused(NotAuthorizable)
    else if !Allowed(EffectivePolicy(t), caller, VIEW, n.value.scope) then Refused(Forbidden)
    else BadCursor
  }

  /** The page of an accepted request: the next rows, in descending order, of those the caller is to see. */
  ghost predicate IsListPage(t: Tables, table: set<EventRow>, p: Platform, caller: Principal, filter: QueryFilter,
                             cursor: string, now: int, page: QueryPage, rows: seq<EventRow>)
    requires Accepted(t, p, caller, filter, cursor, now)
  {
    var n := Normalize(p.text, filter, now).value;
    var fingerprint := p.hash(FieldsOf(p.text, n));
    && n.limit >= 1
    && IsPage(table, VisibleTo(t, caller, p.text, n), p.codec, fingerprint, n.limit,
              p.codec.Decode(cursor, fingerprint).value, page, rows)
  }

  ghost predicate Summarizes(items: seq<EventSummary>, rows: seq<EventRow>) {
    |items| == |rows| && forall i | 0 <= i < |rows| :: items[i] == Summary(rows[i])
  }

  /** Over-fetched rows cut to a page: summaries of the first of them, whether more follows, and the cursor. */
  ghost predicate IsPage(table: set<EventRow>, keep: EventRow -> bool, codec: Codec, fingerprint: string, limit: nat,
                         position: Option<CursorPosition>, page: QueryPage, rows: seq<EventRow>) {
    && IsQueryResult(table, keep, position, limit + 1, rows)
    && Summarizes(page.items, PageRows(rows, limit))
    && (page.hasMore <==> |rows| > limit)
    && Ok(page.next) == NextCursor(codec, fingerprint, rows, limit)
  }

  /** The stored page: the next rows the SQL conditions and the filter keep, cut to the limit, with their cursor. */
  method FetchPage(ghost table: set<EventRow>, p: Platform, v: VisibilityConstraint, f: QueryFilter,
                   fingerprint: string, position: Option<CursorPosition>)
    returns (items: seq<EventSummary>, hasMore: bool, next: Result<string, CursorError>, ghost rows: seq<EventRow>)
    requires VisibilityConditions(v).Ok? && Answers(p, table) && f.limit >= 1 && RealKeys(table)
    requires fingerprint != ""
    ensures next.Ok?
    ensures IsPage(table, KeptBy(p.text, f, VisibilityConditions(v).value), p.codec, fingerprint, f.limit, position,
                   QueryPage(items, next.value, hasMore), rows)
  {
    var where := AuditPredicates(p.text, f, position, v);
    var fetched := p.query(where.value, f.limit + 1);
    rows := fetched;
    WhereIsPage(table, where.value, VisibilityConditions(v).value, p.text, f, position, f.limit + 1, fetched);
    items, hasMore, next := ListPage(p.codec, fingerprint, fetched, f.limit);
    if hasMore {
      assert fetched[f.limit - 1] in fetched;
    }
  }

  /** Two tests that agree on every row there is have the same pages. */
  lemma SameRowsSamePage(table: set<EventRow>, keep: EventRow -> bool, visible: EventRow -> bool, codec: Codec,
                         fingerprint: string, limit: nat, position: Option<CursorPosition>, page: QueryPage,
                         rows: seq<EventRow>)
    requires Agree(table, keep, visible)
    requires IsPage(table, keep, codec, fingerprint, limit, position, page, rows)
    ensures IsPage(table, visible, codec, fingerprint, limit, position, page, rows)
  {
    SameRowsSameResult(table, keep, visible, position, limit + 1, rows);
  }

  /**
   One page. A request succeeds exactly when its filter normalizes, the engine allows its scope and its cursor was
   made for this filter; the page is then the next rows, in descending order, of those the caller is to see.
   */
  method List(ghost t: Tables, ghost table: set<EventRow>, rules: set<Rule>, denyRows: seq<DenyScopeRow>, p: Platform,
              caller: Principal, filter: QueryFilter, cursor: string, now: int)
    returns (r: Result<QueryPage, ListError>, ghost rows: seq<EventRow>)
    requires rules == EffectivePolicy(t) && WellFormedDenies(t) && IsDenyQueryResult(t, caller.userId, denyRows)
    requires Answers(p, table) && RealKeys(table) && AncestryIsComplete(table)
    requires forall fields: FingerprintFields :: p.hash(fields) != ""
    ensures r.Ok? <==> Accepted(t, p, caller, filter, cursor, now)
    ensures r.Err? ==> r.error == Refusal(t, p, caller, filter, now)
    ensures r.Ok? ==> IsListPage(t, table, p, caller, filter, cursor, now, r.value, rows)
  {
    rows := [];
    var normalized := NormalizeFilter(p.text, filter, now);
    if normalized.Err? {
      r := Err(Refused(normalized.error));
      return;
    }
    var n := normalized.value;
    var allowed := Authorize(rules, caller, VIEW, n.scope);
    if allowed.Err? {
      r := Err(Refused(NotAuthorizable));
      return;
    }
    if !allowed.value {
      r := Err(Refused(Forbidden));
      return;
    }
    var visibility := Resolve(n.scope, denyRows);
    if visibility.Err? {
      r := Err(Refused(IncompleteDeny));
      return;
    }
    var fingerprint := p.hash(FieldsOf(p.text, n));
    var position := p.codec.Decode(cursor, fingerprint);
    if position.Err? {
      r := Err(BadCursor);
      return;
    }
    ConditionsExist(t, caller, denyRows, visibility.value);
    var items, hasMore, next;
    items, hasMore, next, rows := FetchPage(table, p, visibility.value, n, fingerprint, position.value);
    if next.Err? {
      r := Err(BadCursor);
      return;
    }
    var page := QueryPage(items, next.value, hasMore);
    ProjectionsAgree(t, table, caller, denyRows, visibility.value, p.text, n);
    SameRowsSamePage(table, KeptBy(p.text, n, VisibilityConditions(visibility.value).value),
                     VisibleTo(t, caller, p.text, n), p.codec, fingerprint, n.limit, position.value, page, rows);
    r := Ok(page);
  }

  // ---------------------------------------------------------------------------------------------
  // Following the cursors of successive requests
  // ---------------------------------------------------------------------------------------------

  /** One answered request: when it was made, the records there were, the cursor sent and the page received. */
  datatype Turn = Turn(now: int, table: set<EventRow>, platform: Platform, cursor: string, page: QueryPage,
      rows: seq<EventRow>)

  /** The parts of the platform that stay the same from request to request. */
  ghost predicate SamePlatform(a: Platform, b: Platform) {
    a.text == b.text && a.hash == b.hash && a.codec == b.codec
  }

  ghost predicate TurnIsAnswered(t: Tables, caller: Principal, filter: QueryFilter, turn: Turn) {
    && Accepted(t, turn.platform, caller, filter, turn.cursor, turn.now)
    && IsListPage(t, turn.table, turn.platform, caller, filter, turn.cursor, turn.now, turn.page, turn.rows)
    && RealKeys(turn.table)
  }

  /** The next request sends the cursor of a page that announced more; records may have been added meanwhile. */
  ghost predicate TurnFollows(turn: Turn, next: Turn) {
    && turn.page.hasMore && next.cursor == turn.page.next
    && turn.table <= next.table && SamePlatform(turn.platform, next.platform)
  }

  /** A caller pages through one filter with a given window end, starting without a cursor. */
  ghost predicate Pages(t: Tables, caller: Principal, filter: QueryFilter, turns: seq<Turn>) {
    && turns != [] && turns[0].cursor == "" && filter.occurredTo != ZERO_TIME
    && (forall i: nat | i < |turns| :: TurnIsAnswered(t, caller, filter, turns[i]))
    && (forall i: nat, j: nat | i < |turns| && j == i + 1 < |turns| :: TurnFollows(turns[i], turns[j]))
    && turns[0].platform.codec.Faithful() && forall fields: FingerprintFields :: turns[0].platform.hash(fields) != ""
  }

  /** With its window end given, a filter normalizes alike at every time. */
  lemma GivenWindowStays(text: TextRules, filter: QueryFilter, now: int, later: int)
    requires filter.occurredTo != ZERO_TIME
    ensures Normalize(text, filter, now) == Normalize(text, filter, later)
  {
  }

  lemma {:induction false} OnePlatform(t: Tables, caller: Principal, filter: QueryFilter, turns: seq<Turn>, i: nat)
    requires Pages(t, caller, filter, turns) && i < |turns|
    ensures SamePlatform(turns[0].platform, turns[i].platform)
  {
    if i > 0 {
      OnePlatform(t, caller, filter, turns, i - 1);
      assert TurnFollows(turns[i - 1], turns[i]);
    }
  }

  function RequestOf(turn: Turn): AuditPages.Request {
    AuditPages.Request(turn.table, turn.cursor, turn.rows)
  }

  /** The requests as a walk over pages of the rows the caller is to see. */
  ghost function WalkOf(t: Tables, caller: Principal, filter: QueryFilter, turns: seq<Turn>): Walk
    requires Pages(t, caller, filter, turns)
  {
    var p := turns[0].platform;
    assert TurnIsAnswered(t, caller, filter, turns[0]);
    var n := Normalize(p.text, filter, turns[0].now).value;
    Walk(p.codec, p.hash(FieldsOf(p.text, n)), VisibleTo(t, caller, p.text, n), n.limit,
         seq(|turns|, i requires 0 <= i < |turns| => RequestOf(turns[i])))
  }

  /** The turn as a request of the walk: its page is the kept rows, summarized, and their cursor. */
  ghost predicate IsRequest(w: Walk, turn: Turn) {
    && RequestValid(w, RequestOf(turn))
    && (turn.page.hasMore <==> |turn.rows| > w.limit)
    && Ok(turn.page.next) == NextCursor(w.codec, w.fingerprint, turn.rows, w.limit)
    && Summarizes(turn.page.items, PageRows(turn.rows, w.limit))
  }

  ghost predicate AreRequests(w: Walk, turns: seq<Turn>) {
    && |w.requests| == |turns|
    && forall i: nat | i < |turns| :: w.requests[i] == RequestOf(turns[i]) && IsRequest(w, turns[i])
  }

  lemma TurnIsRequest(t: Tables, caller: Principal, filter: QueryFilter, turns: seq<Turn>, i: nat)
    requires Pages(t, caller, filter, turns) && i < |turns|
    ensures IsRequest(WalkOf(t, caller, filter, turns), turns[i])
  {
    OnePlatform(t, caller, filter, turns, i);
    GivenWindowStays(turns[0].platform.text, filter, turns[0].now, turns[i].now);
    assert TurnIsAnswered(t, caller, filter, turns[i]);
  }

  lemma TurnsAreRequests(t: Tables, caller: Principal, filter: QueryFilter, turns: seq<Turn>)
    requires Pages(t, caller, filter, turns)
    ensures AreRequests(WalkOf(t, caller, filter, turns), turns)
  {
    forall i: nat | i < |turns|
      ensures IsRequest(WalkOf(t, caller, filter, turns), turns[i])
    {
      TurnIsRequest(t, caller, filter, turns, i);
    }
  }

  lemma FirstTurnSetsTheWalk(t: Tables, caller: Principal, filter: QueryFilter, turns: seq<Turn>)
    requires Pages(t, caller, filter, turns)
    ensures var w := WalkOf(t, caller, filter, turns);
            w.codec.Faithful() && w.fingerprint != "" && w.limit > 0
  {
    assert TurnIsAnswered(t, caller, filter, turns[0]);
  }

  lemma NextTurnFollows(w: Walk, turn: Turn, next: Turn)
    requires IsRequest(w, turn) && TurnFollows(turn, next)
    ensures Follows(w, RequestOf(turn), RequestOf(next))
  {
  }

  /** Following the cursors of successive list requests is a valid walk. */
  lemma {:induction false} ListRequestsFormAWalk(t: Tables, caller: Principal, filter: QueryFilter, turns: seq<Turn>)
    requires Pages(t, caller, filter, turns)
    ensures ValidWalk(WalkOf(t, caller, filter, turns))
  {
    var w := WalkOf(t, caller, filter, turns);
    FirstTurnSetsTheWalk(t, caller, filter, turns);
    TurnsAreRequests(t, caller, filter, turns);
    forall i, j | 0 <= i < |w.requests| && j == i + 1 < |w.requests|
      ensures Follows(w, w.requests[i], w.requests[j])
    {
      assert TurnFollows(turns[i], turns[j]);
      NextTurnFollows(w, turns[i], turns[j]);
    }
  }

  /** Everything the pages showed, in the order it was shown. */
  function Shown(turns: seq<Turn>, n: nat): seq<EventSummary>
    requires n <= |turns|
  {
    if n == 0 then [] else Shown(turns, n - 1) + turns[n - 1].page.items
  }

  lemma SummariesJoin(items: seq<EventSummary>, rows: seq<EventRow>, more: seq<EventSummary>, next: seq<EventRow>)
    requires Summarizes(items, rows) && Summarizes(more, next)
    ensures Summarizes(items + more, rows + next)
  {
  }

  ghost predicate ShowsPage(w: Walk, turns: seq<Turn>, i: nat)
    requires i < |turns| && i < |w.requests|
  {
    Summarizes(turns[i].page.items, PageRows(w.requests[i].rows, w.limit))
  }

  lemma {:induction false} ShownAreReturned(w: Walk, turns: seq<Turn>, n: nat)
    requires n <= |turns| == |w.requests|
    requires forall i: nat | i < |turns| :: ShowsPage(w, turns, i)
    ensures Summarizes(Shown(turns, n), Returned(w, n))
  {
    if n > 0 {
      ShownAreReturned(w, turns, n - 1);
      assert ShowsPage(w, turns, n - 1);
      SummariesJoin(Shown(turns, n - 1), Returned(w, n - 1),
                    turns[n - 1].page.items, PageRows(w.requests[n - 1].rows, w.limit));
    }
  }

  lemma WalkShowsEachRowOnce(w: Walk, turns: seq<Turn>)
    requires AreRequests(w, turns) && ValidWalk(w) && turns != []
    ensures var out := Returned(w, |turns|);
            && Summarizes(Shown(turns, |turns|), out) && Descending(out)
            && (forall e <- out :: w.keep(e) && e in turns[|turns| - 1].table)
            && (!turns[|turns| - 1].page.hasMore ==> forall e <- turns[0].table :: w.keep(e) ==> e in out)
  {
    forall i: nat | i < |turns|
      ensures ShowsPage(w, turns, i)
    {
      assert IsRequest(w, turns[i]);
    }
    ShownAreReturned(w, turns, |turns|);
    WalkReturnsEachRowOnce(w);
    assert w.requests[0] == RequestOf(turns[0]);
    assert w.requests[|turns| - 1] == RequestOf(turns[|turns| - 1]) && IsRequest(w, turns[|turns| - 1]);
  }

  /**
   End to end. Following the cursors of List under one policy state shows summaries of rows in strictly descending
   order, so none twice, each of a record the caller may view; and once a page announces no more, every record the
   caller may view that was there at the first request has been shown.
   */
  lemma {:induction false} ListShowsEachViewableEventOnce(t: Tables, caller: Principal, filter: QueryFilter,
      turns: seq<Turn>)
    requires Pages(t, caller, filter, turns)
    ensures var w := WalkOf(t, caller, filter, turns);
            var out := Returned(w, |turns|);
            && Summarizes(Shown(turns, |turns|), out) && Descending(out)
            && (forall e <- out :: w.keep(e) && e in turns[|turns| - 1].table)
            && (!turns[|turns| - 1].page.hasMore ==> forall e <- turns[0].table :: w.keep(e) ==> e in out)
  {
    ListRequestsFormAWalk(t, caller, filter, turns);
    TurnsAreRequests(t, caller, filter, turns);
    WalkShowsEachRowOnce(WalkOf(t, caller, filter, turns), turns);
  }
}
