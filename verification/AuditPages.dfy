/**
 Keyset pagination of the audit list. Audit records are append-only, so between two page requests the
 table can only grow.
 */
module AuditPages {
  import opened Basics
  import opened Scopes
  import opened Sql
  import opened AuditVisibility
  import opened Cursor

  // ---------------------------------------------------------------------------------------------
  // Filters
  // ---------------------------------------------------------------------------------------------

  const DEFAULT_LIMIT: int := 20
  const MAXIMUM_LIMIT: int := 100
  const DEFAULT_QUERY_RANGE: int := 24 * 3600
  const MAXIMUM_QUERY_RANGE: int := 90 * 24 * 3600

  datatype QueryFilter = QueryFilter(
    scope: Scope, occurredFrom: int, occurredTo: int,
    action: string, resourceType: string, actor: string, requestId: string, limit: int)

  /** Text operations of the platform that the filter relies on. */
  datatype TextRules = TextRules(
    lower: string -> string, trim: string -> string, parseUuid: string -> Option<Uuid>, foldsToSystem: string -> bool)
  {
    /** Identifiers parse, and the word for system actors is recognized, without regard to case. */
    ghost predicate CaseBlind() {
      forall a: string, b: string ::
        lower(a) == lower(b) ==> parseUuid(a) == parseUuid(b) && foldsToSystem(a) == foldsToSystem(b)
    }
  }

  function Normalize(rules: TextRules, f: QueryFilter, now: int): Result<QueryFilter, AuditError> {
    var to := if f.occurredTo == ZERO_TIME then now else f.occurredTo;
    var from := if f.occurredFrom == ZERO_TIME then to - DEFAULT_QUERY_RANGE else f.occurredFrom;
    var limit := if f.limit == 0 then DEFAULT_LIMIT else f.limit;
    var action, resourceType := rules.trim(f.action), rules.trim(f.resourceType);
    var actor, requestId := rules.trim(f.actor), rules.trim(f.requestId);
    if !(from < to) || to - from > MAXIMUM_QUERY_RANGE then Err(InvalidFilter)
    else if limit < 1 || limit > MAXIMUM_LIMIT then Err(InvalidFilter)
    else if !f.scope.Valid() then Err(InvalidFilter)
    else if |action| > 255 || |resourceType| > 255 || |actor| > 255 || |requestId| > 255 then Err(InvalidFilter)
    else Ok(QueryFilter(f.scope, from, to, action, resourceType, actor, requestId, limit))
  }

  predicate ActorMatches(rules: TextRules, actor: string, e: EventRow) {
    if actor == "" then true
    else if rules.foldsToSystem(actor) then e.actorId.None?
    else if rules.parseUuid(actor).Some? then e.actorId == rules.parseUuid(actor)
    else e.actorDisplayName.Some? && rules.lower(e.actorDisplayName.value) == rules.lower(actor)
  }

  /** The filter part of the WHERE clause; empty text fields filter nothing. */
  predicate FilterKeeps(rules: TextRules, f: QueryFilter, e: EventRow) {
    && f.occurredFrom <= e.occurredAt < f.occurredTo
    && (f.action != "" ==> e.action == f.action)
    && (f.resourceType != "" ==> e.resourceType == f.resourceType)
    && (f.requestId != "" ==> e.requestId == f.requestId)
    && ActorMatches(rules, f.actor, e)
  }

  /** What the fingerprint hashes: every normalized filter field except the page size, with the actor in lower case. */
  datatype FingerprintFields = FingerprintFields(
    scopePath: string, occurredFrom: int, occurredTo: int,
    action: string, resourceType: string, actor: string, requestId: string)

  function FieldsOf(rules: TextRules, f: QueryFilter): FingerprintFields {
    FingerprintFields(f.scope.Path(), f.occurredFrom, f.occurredTo, f.action, f.resourceType, rules.lower(f.actor),
        f.requestId)
  }

  ghost predicate Injective(hash: FingerprintFields -> string) {
    forall a: FingerprintFields, b: FingerprintFields :: hash(a) == hash(b) ==> a == b
  }

  /** Filters with one fingerprint have the same scope and select the same events, so a cursor never changes filters. */
  lemma FingerprintFixesSelection(rules: TextRules, hash: FingerprintFields -> string, f: QueryFilter, g: QueryFilter,
      e: EventRow)
    requires Injective(hash) && rules.CaseBlind() && f.scope.Valid() && g.scope.Valid()
    requires rules.lower("") == "" && forall s: string :: rules.lower(s) == "" ==> s == ""
    requires hash(FieldsOf(rules, f)) == hash(FieldsOf(rules, g))
    ensures f.scope == g.scope
    ensures FilterKeeps(rules, f, e) <==> FilterKeeps(rules, g, e)
  {
    assert FieldsOf(rules, f) == FieldsOf(rules, g);
    PathInjective(f.scope, g.scope);
    assert rules.parseUuid(f.actor) == rules.parseUuid(g.actor)
        && rules.foldsToSystem(f.actor) == rules.foldsToSystem(g.actor);
  }

  /**
   A cursor made at one time is accepted at another exactly when the end of the window was given or the time is the
   same: an empty end moves with the clock, and with it the fingerprint.
   */
  lemma CursorAcceptedLaterIff(rules: TextRules, hash: FingerprintFields -> string, codec: Codec,
                               f: QueryFilter, now: int, later: int, position: CursorPosition)
    requires Injective(hash) && codec.Faithful()
    requires Normalize(rules, f, now).Ok? && Normalize(rules, f, later).Ok?
    requires position.occurredAt != ZERO_TIME && position.eventId != NIL_UUID
    requires hash(FieldsOf(rules, Normalize(rules, f, now).value)) != ""
    ensures var first := hash(FieldsOf(rules, Normalize(rules, f, now).value));
            var second := hash(FieldsOf(rules, Normalize(rules, f, later).value));
            && codec.Encode(position, first).Ok?
            && (codec.Decode(codec.Encode(position, first).value, second).Ok? <==>
                (f.occurredTo != ZERO_TIME || now == later))
            && (f.occurredTo != ZERO_TIME || now == later ==>
                  codec.Decode(codec.Encode(position, first).value, second) == Ok(Some(position)))
  {
    var a, b := FieldsOf(rules, Normalize(rules, f, now).value), FieldsOf(rules, Normalize(rules, f, later).value);
    if f.occurredTo == ZERO_TIME {
      assert a.occurredTo == now && b.occurredTo == later;
    }
    CursorRoundTrip(codec, position, hash(a), hash(b));
  }

  // ---------------------------------------------------------------------------------------------
  // One page
  // ---------------------------------------------------------------------------------------------

  predicate KeyLess(a: CursorPosition, b: CursorPosition) {
    a.occurredAt < b.occurredAt || (a.occurredAt == b.occurredAt && a.eventId < b.eventId)
  }

  function KeyOf(e: EventRow): CursorPosition {
    CursorPosition(e.occurredAt, e.id)
  }

  predicate BeforePosition(e: EventRow, position: Option<CursorPosition>) {
    position.Some? ==> KeyLess(KeyOf(e), position.value)
  }

  ghost predicate Descending(rows: seq<EventRow>) {
    forall i, j | 0 <= i < j < |rows| :: KeyLess(KeyOf(rows[j]), KeyOf(rows[i]))
  }

  /** The rows of `WHERE ... ORDER BY occurred_at DESC, id DESC LIMIT count`. */
  ghost predicate IsQueryResult(table: set<EventRow>, keep: EventRow -> bool, position: Option<CursorPosition>,
      count: nat, rows: seq<EventRow>) {
    && Descending(rows) && |rows| <= count
    && (forall e <- rows :: e in table && keep(e) && BeforePosition(e, position))
    && (forall e <- table :: keep(e) && BeforePosition(e, position) ==>
          e in rows || (|rows| == count && (count > 0 ==> KeyLess(KeyOf(e), KeyOf(rows[count - 1])))))
  }

  function PageRows(rows: seq<EventRow>, limit: nat): seq<EventRow> {
    if |rows| > limit then rows[..limit] else rows
  }

  /** Cuts one over-fetched result to a page, reports whether more follows and encodes the next cursor. */
  method ListPage(codec: Codec, fingerprint: string, rows: seq<EventRow>, limit: nat)
    returns (items: seq<EventSummary>, hasMore: bool, next: Result<string, CursorError>)
    ensures |items| == |PageRows(rows, limit)|
    ensures forall i | 0 <= i < |items| :: items[i] == Summary(PageRows(rows, limit)[i])
    ensures hasMore <==> |rows| > limit
    ensures next == NextCursor(codec, fingerprint, rows, limit)
  {
    hasMore := |rows| > limit;
    var page := rows;
    if hasMore {
      page := rows[..limit];
    }
    items := [];
    for i := 0 to |page|
      invariant |items| == i
      invariant forall k | 0 <= k < i :: items[k] == Summary(page[k])
    {
      items := items + [Summary(page[i])];
    }
    next := Ok("");
    if hasMore && |items| > 0 {
      var last := items[|items| - 1];
      next := codec.Encode(CursorPosition(last.occurredAt, last.id), fingerprint);
    }
  }

  function NextCursor(codec: Codec, fingerprint: string, rows: seq<EventRow>, limit: nat): Result<string, CursorError> {
    if |rows| > limit > 0 then codec.Encode(KeyOf(rows[limit - 1]), fingerprint) else Ok("")
  }

  // ---------------------------------------------------------------------------------------------
  // A walk over pages
  // ---------------------------------------------------------------------------------------------

  /** One request of a walk: the table at that moment, the cursor sent and the rows the query fetched. */
  datatype Request = Request(table: set<EventRow>, cursor: string, rows: seq<EventRow>)

  datatype Walk = Walk(codec: Codec, fingerprint: string, keep: EventRow -> bool, limit: nat, requests: seq<Request>)

  /** Stored records carry a real time and identifier. */
  ghost predicate RealKeys(table: set<EventRow>) {
    forall e <- table :: e.occurredAt != ZERO_TIME && e.id != NIL_UUID
  }

  /** The position a request's cursor stands for. */
  function PositionOf(w: Walk, r: Request): Option<CursorPosition> {
    var decoded := w.codec.Decode(r.cursor, w.fingerprint);
    if decoded.Ok? then decoded.value else None
  }

  ghost predicate RequestValid(w: Walk, r: Request) {
    && RealKeys(r.table)
    && w.codec.Decode(r.cursor, w.fingerprint).Ok?
    && IsQueryResult(r.table, w.keep, PositionOf(w, r), w.limit + 1, r.rows)
  }

  /** The next request follows an announced page with that page's cursor, on a table that may have grown. */
  ghost predicate Follows(w: Walk, r: Request, next: Request) {
    && |r.rows| > w.limit
    && Ok(next.cursor) == NextCursor(w.codec, w.fingerprint, r.rows, w.limit)
    && r.table <= next.table
  }

  /** A walk starts without a cursor and then follows the cursor of each page. */
  ghost predicate ValidWalk(w: Walk) {
    && w.codec.Faithful() && w.fingerprint != "" && w.limit > 0
    && (forall i | 0 <= i < |w.requests| :: RequestValid(w, w.requests[i]))
    && (|w.requests| > 0 ==> w.requests[0].cursor == "")
    && (forall i, j | 0 <= i < |w.requests| && j == i + 1 < |w.requests| :: Follows(w, w.requests[i], w.requests[j]))
  }

  function Returned(w: Walk, n: nat): seq<EventRow>
    requires n <= |w.requests|
  {
    if n == 0 then [] else Returned(w, n - 1) + PageRows(w.requests[n - 1].rows, w.limit)
  }

  /** Whether a request after n pages makes sense, and the boundary it starts from. */
  predicate MoreAfter(w: Walk, n: nat)
    requires n <= |w.requests|
  {
    n == 0 || |w.requests[n - 1].rows| > w.limit
  }

  function BoundaryAfter(w: Walk, n: nat): Option<CursorPosition>
    requires n <= |w.requests| && w.limit > 0
  {
    if n == 0 || !MoreAfter(w, n) then None else Some(KeyOf(w.requests[n - 1].rows[w.limit - 1]))
  }

  lemma CursorCarriesBoundary(w: Walk, n: nat)
    requires ValidWalk(w) && n < |w.requests|
    ensures MoreAfter(w, n) && PositionOf(w, w.requests[n]) == BoundaryAfter(w, n)
  {
    if n > 0 {
      var r := w.requests[n - 1];
      assert Follows(w, r, w.requests[n]) && RequestValid(w, r);
      var last := r.rows[w.limit - 1];
      assert last in r.rows;
      CursorRoundTrip(w.codec, KeyOf(last), w.fingerprint, w.fingerprint);
    }
  }

  lemma {:induction false} TablesGrow(w: Walk, i: nat, j: nat)
    requires ValidWalk(w) && i <= j < |w.requests|
    ensures w.requests[i].table <= w.requests[j].table
    decreases j - i
  {
    if i < j {
      TablesGrow(w, i, j - 1);
      assert Follows(w, w.requests[j - 1], w.requests[j]);
    }
  }

  /** Output that is complete down to a boundary: every kept row of the first table is in it or below the boundary. */
  ghost predicate CompleteDownTo(first: set<EventRow>, keep: EventRow -> bool, out: seq<EventRow>, more: bool,
      position: Option<CursorPosition>) {
    forall e <- first :: keep(e) ==> e in out || (more && BeforePosition(e, position))
  }

  ghost predicate EndsAt(out: seq<EventRow>, position: Option<CursorPosition>) {
    if out == [] then position.None? else position == Some(KeyOf(out[|out| - 1]))
  }

  /** Appending one fetched page keeps the output descending and complete down to the new boundary. */
  lemma AppendPage(first: set<EventRow>, table: set<EventRow>, keep: EventRow -> bool, limit: nat, rows: seq<EventRow>,
                   before: seq<EventRow>, position: Option<CursorPosition>)
    requires limit > 0 && first <= table && IsQueryResult(table, keep, position, limit + 1, rows)
    requires Descending(before) && EndsAt(before, position) && CompleteDownTo(first, keep, before, true, position)
    ensures Descending(before + PageRows(rows, limit))
    ensures |rows| > limit ==> EndsAt(before + PageRows(rows, limit), Some(KeyOf(rows[limit - 1])))
    ensures CompleteDownTo(first, keep, before + PageRows(rows, limit), |rows| > limit,
                           if |rows| > limit then Some(KeyOf(rows[limit - 1])) else None)
  {
    var page := PageRows(rows, limit);
    var out := before + page;
    assert forall e <- page :: e in rows;
    DescendingConcat(before, page);
    forall e | e in first && keep(e)
      ensures e in out || (|rows| > limit && KeyLess(KeyOf(e), KeyOf(rows[limit - 1])))
    {
      if e !in before {
        RowOrLater(rows, limit, e);
      }
    }
  }

  lemma DescendingConcat(a: seq<EventRow>, b: seq<EventRow>)
    requires Descending(a) && Descending(b)
    requires a != [] ==> forall e <- b :: KeyLess(KeyOf(e), KeyOf(a[|a| - 1]))
    ensures Descending(a + b)
  {
    forall i, j | 0 <= i < j < |a + b|
      ensures KeyLess(KeyOf((a + b)[j]), KeyOf((a + b)[i]))
    {
      if i < |a| <= j {
        assert b[j - |a|] in b;
        assert i == |a| - 1 || KeyLess(KeyOf(a[|a| - 1]), KeyOf(a[i]));
      }
    }
  }

  lemma RowOrLater(rows: seq<EventRow>, limit: nat, e: EventRow)
    requires Descending(rows) && limit > 0
    requires e in rows || (|rows| == limit + 1 && KeyLess(KeyOf(e), KeyOf(rows[limit])))
    ensures e in PageRows(rows, limit) || (|rows| > limit && KeyLess(KeyOf(e), KeyOf(rows[limit - 1])))
  {
    if e in rows {
      var k :| 0 <= k < |rows| && rows[k] == e;
      if |rows| > limit && k < limit {
        assert PageRows(rows, limit)[k] == e;
      }
    } else {
      assert KeyLess(KeyOf(rows[limit]), KeyOf(rows[limit - 1]));
    }
  }

  /** After n pages: the output is descending, ends at the boundary and is complete down to it. */
  lemma {:induction false} WalkSoFar(w: Walk, n: nat)
    requires ValidWalk(w) && n <= |w.requests| && w.requests != []
    ensures Descending(Returned(w, n))
    ensures MoreAfter(w, n) ==> EndsAt(Returned(w, n), BoundaryAfter(w, n))
    ensures CompleteDownTo(w.requests[0].table, w.keep, Returned(w, n), MoreAfter(w, n), BoundaryAfter(w, n))
  {
    if n > 0 {
      WalkSoFar(w, n - 1);
      CursorCarriesBoundary(w, n - 1);
      TablesGrow(w, 0, n - 1);
      var r := w.requests[n - 1];
      assert IsQueryResult(r.table, w.keep, PositionOf(w, r), w.limit + 1, r.rows) by {
        assert RequestValid(w, r);
      }
      AppendPage(w.requests[0].table, r.table, w.keep, w.limit, r.rows, Returned(w, n - 1), BoundaryAfter(w, n - 1));
    }
  }

  lemma {:induction false} FullPages(w: Walk, n: nat)
    requires ValidWalk(w) && n <= |w.requests| && MoreAfter(w, n)
    ensures |Returned(w, n)| == n * w.limit
  {
    if n > 0 {
      CursorCarriesBoundary(w, n - 1);
      FullPages(w, n - 1);
      assert (n - 1) * w.limit + w.limit == n * w.limit;
    }
  }

  lemma {:induction false} ReturnedFromTables(w: Walk, n: nat)
    requires ValidWalk(w) && 0 < n <= |w.requests|
    ensures forall e <- Returned(w, n) :: w.keep(e) && e in w.requests[n - 1].table
  {
    var r := w.requests[n - 1];
    assert RequestValid(w, r);
    assert forall e <- PageRows(r.rows, w.limit) :: e in r.rows;
    if n > 1 {
      ReturnedFromTables(w, n - 1);
      TablesGrow(w, n - 2, n - 1);
    }
  }

  /**
   Main theorem. Whatever is inserted between requests, a walk returns rows in strictly descending key order
   and so never twice; and a walk that runs to its last page returns every row that was there from the start.
   */
  lemma WalkReturnsEachRowOnce(w: Walk)
    requires ValidWalk(w) && w.requests != []
    ensures var out := Returned(w, |w.requests|);
            && Descending(out)
            && (forall i, j | 0 <= i < j < |out| :: out[i].id != out[j].id || out[i].occurredAt != out[j].occurredAt)
            && (forall e <- out :: w.keep(e) && e in w.requests[|w.requests| - 1].table)
    ensures |w.requests[|w.requests| - 1].rows| <= w.limit ==>
              forall e <- w.requests[0].table :: w.keep(e) ==> e in Returned(w, |w.requests|)
  {
    WalkSoFar(w, |w.requests|);
    ReturnedFromTables(w, |w.requests|);
    var out := Returned(w, |w.requests|);
    forall i, j | 0 <= i < j < |out|
      ensures out[i].id != out[j].id || out[i].occurredAt != out[j].occurredAt
    {
      assert KeyLess(KeyOf(out[j]), KeyOf(out[i]));
    }
  }

  lemma {:induction false} DistinctRowsFit(rows: seq<EventRow>, table: set<EventRow>)
    requires Descending(rows) && forall e <- rows :: e in table
    ensures |rows| <= |table|
  {
    if rows != [] {
      var last := rows[|rows| - 1];
      var rest := rows[..|rows| - 1];
      forall e | e in rest
        ensures e in table - {last}
      {
        var k :| 0 <= k < |rest| && rest[k] == e;
        assert KeyLess(KeyOf(last), KeyOf(rows[k]));
      }
      DistinctRowsFit(rest, table - {last});
      assert last in rows;
    }
  }

  /** On a table that does not change, a walk is over within one request more than there are full pages. */
  lemma WalkTerminates(w: Walk, table: set<EventRow>)
    requires ValidWalk(w) && w.requests != [] && forall r <- w.requests :: r.table == table
    ensures (|w.requests| - 1) * w.limit <= |table|
  {
    var n := |w.requests| - 1;
    if n > 0 {
      WalkSoFar(w, n);
      CursorCarriesBoundary(w, n);
      FullPages(w, n);
      ReturnedFromTables(w, n);
      assert w.requests[n - 1] in w.requests;
      DistinctRowsFit(Returned(w, n), table);
    }
  }
}
