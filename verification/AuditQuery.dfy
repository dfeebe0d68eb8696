/** The WHERE clause of one list request, condition by condition, and what it keeps. */
module AuditQuery {
  import opened Basics
  import opened Sql
  import opened AuditVisibility
  import opened Cursor
  import opened AuditPages

  /** A list of conditions keeps what another list keeps and a test passes. */
  ghost predicate Narrows(where: seq<Condition>, before: seq<Condition>, test: EventRow -> bool) {
    forall e: EventRow :: Keeps(where, e) <==> Keeps(before, e) && test(e)
  }

  lemma OneMore(before: seq<Condition>, c: Condition, test: EventRow -> bool)
    requires forall e: EventRow :: Eval(c, e).True? <==> test(e)
    ensures Narrows(before + [c], before, test)
  {
    forall e: EventRow
      ensures Keeps(before + [c], e) <==> Keeps(before, e) && test(e)
    {
      KeepsAppend(before, [c], e);
      assert Keeps([c], e) <==> Eval([c][0], e).True?;
    }
  }

  /** The conditions of the time window. */
  method WindowPredicates(before: seq<Condition>, f: QueryFilter) returns (where: seq<Condition>)
    ensures Narrows(where, before, (e: EventRow) => f.occurredFrom <= e.occurredAt < f.occurredTo)
  {
    var from := before + [OccurredFrom(f.occurredFrom)];
    OneMore(before, OccurredFrom(f.occurredFrom), (e: EventRow) => f.occurredFrom <= e.occurredAt);
    where := from + [OccurredBefore(f.occurredTo)];
    OneMore(from, OccurredBefore(f.occurredTo), (e: EventRow) => e.occurredAt < f.occurredTo);
  }

  /** One equality on a text column, unless nothing was asked. */
  method TextPredicate(before: seq<Condition>, column: TextColumn, wanted: string) returns (where: seq<Condition>)
    ensures Narrows(where, before, (e: EventRow) => wanted != "" ==> TextOf(e, column) == wanted)
  {
    where := before;
    if wanted != "" {
      where := before + [TextEquals(column, wanted)];
      OneMore(before, TextEquals(column, wanted), (e: EventRow) => TextOf(e, column) == wanted);
    }
  }

  /** The system has no identifier, an identifier is compared as one, anything else is a display name. */
  method ActorPredicate(rules: TextRules, before: seq<Condition>, actor: string) returns (where: seq<Condition>)
    ensures Narrows(where, before, (e: EventRow) => ActorMatches(rules, actor, e))
  {
    where := before;
    if actor != "" {
      var condition := ActorIsNull;
      if !rules.foldsToSystem(actor) {
        var parsed := rules.parseUuid(actor);
        if parsed.Some? {
          condition := ActorEquals(parsed.value);
        } else {
          condition := LowerNameEquals(rules.lower, rules.lower(actor));
        }
      }
      where := before + [condition];
      OneMore(before, condition, (e: EventRow) => ActorMatches(rules, actor, e));
    }
  }

  /** The keyset: rows after the position of a cursor in the descending order. */
  method PositionPredicate(before: seq<Condition>, position: Option<CursorPosition>) returns (where: seq<Condition>)
    ensures Narrows(where, before, (e: EventRow) => BeforePosition(e, position))
  {
    where := before;
    if position.Some? {
      where := before + [KeyBefore(position.value.occurredAt, position.value.eventId)];
      OneMore(before, KeyBefore(position.value.occurredAt, position.value.eventId),
              (e: EventRow) => BeforePosition(e, position));
    }
  }

  /** The WHERE clause: visibility, window, texts, actor and keyset, keeping exactly what all of them keep. */
  method AuditPredicates(rules: TextRules, f: QueryFilter, position: Option<CursorPosition>, v: VisibilityConstraint)
    returns (r: Result<seq<Condition>, AuditError>)
    ensures VisibilityConditions(v).Err? ==> r == VisibilityConditions(v)
    ensures VisibilityConditions(v).Ok? ==>
              r.Ok? && Narrows(r.value, VisibilityConditions(v).value,
                               (e: EventRow) => FilterKeeps(rules, f, e) && BeforePosition(e, position))
  {
    var visibility := VisibilityPredicates(v);
    if visibility.Err? {
      return visibility;
    }
    var window := WindowPredicates(visibility.value, f);
    var action := TextPredicate(window, ActionColumn, f.action);
    var resource := TextPredicate(action, ResourceTypeColumn, f.resourceType);
    var request := TextPredicate(resource, RequestIdColumn, f.requestId);
    var actor := ActorPredicate(rules, request, f.actor);
    var where := PositionPredicate(actor, position);
    return Ok(where);
  }
}
