/** Cursor pages over an ordered list of rows, the cursor being the identifier of a page's last row. */
module AccessPages {
  import opened Basics

  datatype Cursor = Start | After(id: Uuid) | Malformed

  datatype Page<T> = Page(items: seq<T>, next: Cursor, hasMore: bool)

  datatype PageError = InvalidCursor

  function PageSize(limit: int): nat {
    if limit < 1 || limit > 100 then 20 else limit
  }

  ghost predicate DistinctIds<T>(items: seq<T>, id: T -> Uuid) {
    forall i, j | 0 <= i < j < |items| :: id(items[i]) != id(items[j])
  }

  /** The page that starts at a position. */
  function PageFrom<T>(items: seq<T>, id: T -> Uuid, start: nat, limit: int): Page<T>
    requires start <= |items|
  {
    var end := start + PageSize(limit);
    if end < |items|
    then Page(items[start..end], After(id(items[end - 1])), true)
    else Page(items[start..], Start, false)
  }

  /** The answer to a cursor: the first page, the page after the cursor's row, or a refusal. */
  ghost predicate IsPageOf<T>(items: seq<T>, id: T -> Uuid, cursor: Cursor, limit: int, r: Result<Page<T>, PageError>) {
    && (cursor.Start? ==> r == Ok(PageFrom(items, id, 0, limit)))
    && (cursor.Malformed? || (cursor.After? && forall x <- items :: id(x) != cursor.id) ==> r == Err(InvalidCursor))
    && (forall i | 0 <= i < |items| && cursor == After(id(items[i])) && DistinctIds(items, id) ::
          r == Ok(PageFrom(items, id, i + 1, limit)))
  }

  method PageById<T>(items: seq<T>, id: T -> Uuid, cursor: Cursor, limit: int) returns (r: Result<Page<T>, PageError>)
    ensures IsPageOf(items, id, cursor, limit, r)
    ensures r.Ok? ==> var size := if 1 <= limit <= 100 then limit else 20;
              |r.value.items| <= size && (r.value.hasMore ==> |r.value.items| == size)
  {
    var size := limit;
    if size < 1 || size > 100 {
      size := 20;
    }
    var start := 0;
    if !cursor.Start? {
      if cursor.Malformed? {
        return Err(InvalidCursor);
      }
      var index := 0;
      while index < |items| && id(items[index]) != cursor.id
        invariant index <= |items| && forall j | 0 <= j < index :: id(items[j]) != cursor.id
      {
        index := index + 1;
      }
      if index == |items| {
        return Err(InvalidCursor);
      }
      start := index + 1;
    }
    var end := start + size;
    var hasMore := end < |items|;
    if end > |items| {
      end := |items|;
    }
    var page := items[start..end];
    var next := Start;
    if hasMore && |page| > 0 {
      next := After(id(page[|page| - 1]));
    }
    if !hasMore {
      assert items[start..|items|] == items[start..];
    }
    return Ok(Page(page, next, hasMore));
  }

  /** What the method answers to a cursor of one of its own pages. */
  ghost predicate Answers<T>(items: seq<T>, id: T -> Uuid, limit: int, cursor: Cursor, page: Page<T>) {
    || (cursor.Start? && page == PageFrom(items, id, 0, limit))
    || (exists i: nat | i < |items| :: cursor == After(id(items[i])) && page == PageFrom(items, id, i + 1, limit))
  }

  /** Pages fetched one after the other, each with the cursor of the one before, until there is no more. */
  ghost predicate Walk<T>(items: seq<T>, id: T -> Uuid, limit: int, cursor: Cursor, pages: seq<Page<T>>)
    decreases |pages|
  {
    && pages != []
    && Answers(items, id, limit, cursor, pages[0])
    && if pages[0].hasMore then Walk(items, id, limit, pages[0].next, pages[1..]) else |pages| == 1
  }

  function Concatenated<T>(pages: seq<Page<T>>): seq<T> {
    if pages == [] then [] else pages[0].items + Concatenated(pages[1..])
  }

  /** The rows a cursor leaves to be fetched. */
  ghost predicate StartsAt<T>(items: seq<T>, id: T -> Uuid, cursor: Cursor, start: nat) {
    start <= |items| && if start == 0 then cursor.Start? else cursor == After(id(items[start - 1]))
  }

  lemma SameIdSameRow<T>(items: seq<T>, id: T -> Uuid, i: nat, j: nat)
    requires DistinctIds(items, id) && i < |items| && j < |items| && id(items[i]) == id(items[j])
    ensures i == j
  {
  }

  lemma AnswerStartsAt<T>(items: seq<T>, id: T -> Uuid, limit: int, cursor: Cursor, page: Page<T>, start: nat)
    requires DistinctIds(items, id) && StartsAt(items, id, cursor, start) && Answers(items, id, limit, cursor, page)
    ensures page == PageFrom(items, id, start, limit)
  {
    if cursor.After? {
      var i: nat :| i < |items| && cursor == After(id(items[i])) && page == PageFrom(items, id, i + 1, limit);
      SameIdSameRow(items, id, i, start - 1);
    }
  }

  /** The first page of a walk holds the rows from the start, and the rest of the walk starts after it. */
  lemma FirstOfWalk<T>(items: seq<T>, id: T -> Uuid, limit: int, cursor: Cursor, pages: seq<Page<T>>, start: nat)
    requires DistinctIds(items, id) && StartsAt(items, id, cursor, start) && Walk(items, id, limit, cursor, pages)
    ensures pages[0].hasMore ==>
              var end := start + PageSize(limit);
              && end <= |items| && pages[0].items == items[start..end]
              && StartsAt(items, id, pages[0].next, end) && Walk(items, id, limit, pages[0].next, pages[1..])
    ensures !pages[0].hasMore ==> pages == [pages[0]] && pages[0].items == items[start..]
  {
    AnswerStartsAt(items, id, limit, cursor, pages[0], start);
  }

  lemma ConcatenatedOne<T>(page: Page<T>)
    ensures Concatenated([page]) == page.items
  {
    assert [page][1..] == [];
  }

  lemma FirstThenRest<T>(items: seq<T>, pages: seq<Page<T>>, start: nat, end: nat)
    requires start <= end <= |items| && pages != []
    requires pages[0].items == items[start..end] && Concatenated(pages[1..]) == items[end..]
    ensures Concatenated(pages) == items[start..]
  {
    assert items[start..] == items[start..end] + items[end..];
  }

  /** A walk over an unchanging list returns every row once, in order. */
  lemma {:induction false} WalkReturnsTheList<T>(items: seq<T>, id: T -> Uuid, limit: int, cursor: Cursor,
      pages: seq<Page<T>>, start: nat)
    requires DistinctIds(items, id) && StartsAt(items, id, cursor, start) && Walk(items, id, limit, cursor, pages)
    ensures Concatenated(pages) == items[start..]
    decreases |pages|
  {
    FirstOfWalk(items, id, limit, cursor, pages, start);
    if pages[0].hasMore {
      var end := start + PageSize(limit);
      WalkReturnsTheList(items, id, limit, pages[0].next, pages[1..], end);
      FirstThenRest(items, pages, start, end);
    } else {
      ConcatenatedOne(pages[0]);
    }
  }

  /** The cursor sent for a page: none for the first, then that of the page before. */
  function CursorAt<T>(pages: seq<Page<T>>, k: nat): Cursor
    requires k < |pages|
  {
    if k == 0 then Start else pages[k - 1].next
  }

  /** Every page but the last announces another. */
  ghost predicate Complete<T>(pages: seq<Page<T>>) {
    pages != [] && forall k: nat | k < |pages| :: pages[k].hasMore <==> k < |pages| - 1
  }

  ghost predicate IsPageAt<T>(items: seq<T>, id: T -> Uuid, limit: int, pages: seq<Page<T>>, k: nat)
    requires k < |pages|
  {
    IsPageOf(items, id, CursorAt(pages, k), limit, Ok(pages[k]))
  }

  lemma PageAnswers<T>(items: seq<T>, id: T -> Uuid, limit: int, cursor: Cursor, page: Page<T>)
    requires DistinctIds(items, id) && IsPageOf(items, id, cursor, limit, Ok(page))
    ensures Answers(items, id, limit, cursor, page)
  {
    if cursor.After? {
      var x :| x in items && id(x) == cursor.id;
      var i :| 0 <= i < |items| && items[i] == x;
      assert page == PageFrom(items, id, i + 1, limit);
    }
  }

  lemma {:induction false} PagesAreWalk<T>(items: seq<T>, id: T -> Uuid, limit: int, pages: seq<Page<T>>, k: nat)
    requires DistinctIds(items, id) && Complete(pages) && k < |pages|
    requires forall j: nat | j < |pages| :: IsPageAt(items, id, limit, pages, j)
    ensures Walk(items, id, limit, CursorAt(pages, k), pages[k..])
    decreases |pages| - k
  {
    assert IsPageAt(items, id, limit, pages, k);
    PageAnswers(items, id, limit, CursorAt(pages, k), pages[k]);
    if k + 1 < |pages| {
      PagesAreWalk(items, id, limit, pages, k + 1);
      assert pages[k..][1..] == pages[k + 1..];
    }
  }

  /** Sending each page's cursor for the next until no more is announced returns the list. */
  lemma FollowedPagesReturnTheList<T>(items: seq<T>, id: T -> Uuid, limit: int, pages: seq<Page<T>>)
    requires DistinctIds(items, id) && Complete(pages)
    requires forall k: nat | k < |pages| :: IsPageAt(items, id, limit, pages, k)
    ensures Concatenated(pages) == items
  {
    PagesAreWalk(items, id, limit, pages, 0);
    assert pages[0..] == pages && items[0..] == items;
    WalkReturnsTheList(items, id, limit, Start, pages, 0);
  }
}
