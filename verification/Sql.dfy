/** SQL conditions over audit rows, with three-valued logic for NULL columns. */
module Sql {
  import opened Basics

  datatype Resolution = Resolved | Unresolved

  /** One stored audit record. Times are integers; the metadata is its JSON text, an empty object being "{}". */
  datatype EventRow = EventRow(
    id: Uuid, occurredAt: int, actorId: Option<Uuid>, actorDisplayName: Option<string>,
    organizationId: Option<Uuid>, projectId: Option<Uuid>, environmentId: Option<Uuid>, applicationId: Option<Uuid>,
    resolution: Resolution, action: string, resourceType: string, resourceId: string, requestId: string,
    metadata: string)

  /** What a list shows of a record. */
  datatype EventSummary = EventSummary(
    id: Uuid, occurredAt: int, actorId: Option<Uuid>, actorDisplayName: string,
    action: string, resourceType: string, resourceId: string,
    organizationId: Option<Uuid>, projectId: Option<Uuid>, environmentId: Option<Uuid>, applicationId: Option<Uuid>,
    resolution: Resolution, requestId: string, hasMetadata: bool)

  function Summary(e: EventRow): EventSummary {
    EventSummary(
      e.id, e.occurredAt, e.actorId, if e.actorDisplayName.Some? then e.actorDisplayName.value else "",
      e.action, e.resourceType, e.resourceId,
      e.organizationId, e.projectId, e.environmentId, e.applicationId, e.resolution, e.requestId,
      e.metadata != "{}")
  }

  datatype Column = OrganizationColumn | ProjectColumn | EnvironmentColumn | ApplicationColumn

  datatype TextColumn = ActionColumn | ResourceTypeColumn | RequestIdColumn

  datatype Truth = True | False | Unknown

  datatype Condition =
    | Always
    | ResolutionIsResolved
    | ColumnEquals(column: Column, value: Uuid)
    | ColumnIsNotDistinctFrom(column: Column, value: Uuid)
    | OccurredFrom(time: int)
    | OccurredBefore(time: int)
    | TextEquals(text: TextColumn, wanted: string)
    | ActorIsNull
    | ActorEquals(value: Uuid)
    | LowerNameEquals(lower: string -> string, wanted: string)
    | KeyBefore(time: int, value: Uuid)
    | And(left: Condition, right: Condition)
    | Not(inner: Condition)

  function ColumnOf(row: EventRow, column: Column): Option<Uuid> {
    match column
    case OrganizationColumn => row.organizationId
    case ProjectColumn => row.projectId
    case EnvironmentColumn => row.environmentId
    case ApplicationColumn => row.applicationId
  }

  function TextOf(row: EventRow, column: TextColumn): string {
    match column
    case ActionColumn => row.action
    case ResourceTypeColumn => row.resourceType
    case RequestIdColumn => row.requestId
  }

  function OfBool(b: bool): Truth {
    if b then True else False
  }

  function Eval(c: Condition, row: EventRow): Truth {
    match c
    case Always => True
    case ResolutionIsResolved => OfBool(row.resolution == Resolved)
    case ColumnEquals(column, value) =>
      // comparing NULL with = is unknown
      if ColumnOf(row, column).None? then Unknown else OfBool(ColumnOf(row, column).value == value)
    case ColumnIsNotDistinctFrom(column, value) => OfBool(ColumnOf(row, column) == Some(value))
    case OccurredFrom(time) => OfBool(row.occurredAt >= time)
    case OccurredBefore(time) => OfBool(row.occurredAt < time)
    case TextEquals(text, wanted) => OfBool(TextOf(row, text) == wanted)
    case ActorIsNull => OfBool(row.actorId.None?)
    case ActorEquals(value) => if row.actorId.None? then Unknown else OfBool(row.actorId.value == value)
    case LowerNameEquals(lower, wanted) =>
      if row.actorDisplayName.None? then Unknown else OfBool(lower(row.actorDisplayName.value) == wanted)
    case KeyBefore(time, value) => OfBool(row.occurredAt < time || (row.occurredAt == time && row.id < value))
    case And(left, right) =>
      if Eval(left, row).False? || Eval(right, row).False? then False
      else if Eval(left, row).Unknown? || Eval(right, row).Unknown? then Unknown
      else True
    case Not(inner) =>
      match Eval(inner, row)
      case True => False
      case False => True
      case Unknown => Unknown
  }

  /** The logic of SQL: AND is false with a false side and true with two true ones, NOT leaves unknown unknown. */
  lemma ThreeValued(a: Condition, b: Condition, row: EventRow)
    ensures Eval(And(a, b), row) == True <==> Eval(a, row) == True && Eval(b, row) == True
    ensures Eval(And(a, b), row) == False <==> Eval(a, row) == False || Eval(b, row) == False
    ensures Eval(Not(a), row) == True <==> Eval(a, row) == False
    ensures Eval(Not(a), row) == False <==> Eval(a, row) == True
  {
  }

  /** Comparing with = is unknown exactly on NULL, IS NOT DISTINCT FROM never is. */
  lemma Comparisons(column: Column, value: Uuid, row: EventRow)
    ensures Eval(ColumnEquals(column, value), row)
            == (if ColumnOf(row, column) == None then Unknown
                else if ColumnOf(row, column) == Some(value) then True else False)
    ensures Eval(ColumnIsNotDistinctFrom(column, value), row)
            == (if ColumnOf(row, column) == Some(value) then True else False)
    ensures ColumnOf(row, OrganizationColumn) == row.organizationId && ColumnOf(row, ProjectColumn) == row.projectId
    ensures ColumnOf(row, EnvironmentColumn) == row.environmentId
            && ColumnOf(row, ApplicationColumn) == row.applicationId
  {
  }

  /** A WHERE clause joined with AND keeps a row only when every condition is true, not merely not false. */
  predicate Keeps(where: seq<Condition>, row: EventRow) {
    forall i | 0 <= i < |where| :: Eval(where[i], row).True?
  }
}
