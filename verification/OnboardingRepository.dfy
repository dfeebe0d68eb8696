/**
 The onboarding and command tables. Each operation is one transaction: its specification function gives the
 tables after a commit, or the error of a transaction that left no writes. The class performs the writes in
 order and rolls back.
 */
module OnboardingRepository {
  import opened Basics
  import opened ArgoDomain

  datatype Status = ValidationFailed | AwaitingConfirmation | Applying | Managed | ConfigurationDrift

  datatype Onboarding = Onboarding(
    status: Status, issues: seq<Issue>, resourceVersion: string, validatedAt: int,
    confirmedBy: Option<Uuid>, confirmedAt: Option<int>, managedAt: Option<int>,
    driftDetectedAt: Option<int>, driftReasons: seq<DriftReason>, errorCode: string, version: nat)

  datatype Operation = DryRun | Confirm

  datatype CommandKey = CommandKey(actorId: Uuid, operation: Operation, idempotencyKey: string)

  /** The fingerprint of a command is identified with what it hashes. */
  datatype Fingerprint = Fingerprint(actorId: Uuid, applicationId: Uuid, operation: Operation,
      expectedVersion: Option<nat>)

  datatype CommandState = Accepted | Completed

  datatype Command = Command(
    applicationId: Uuid, fingerprint: Fingerprint, state: CommandState,
    onboardingStatus: Option<Status>, onboardingVersion: Option<nat>, completedAt: Option<int>)

  datatype RepositoryError = NotFound | Conflict | IdempotencyKeyReuse

  datatype Db = Db(applications: set<Uuid>, rows: map<Uuid, Onboarding>, commands: map<CommandKey, Command>)

  datatype Committed<T> = Committed(db: Db, value: T)

  datatype Begin = Begun(onboarding: Onboarding) | Replayed(command: Command)

  // ---------------------------------------------------------------------------------------------
  // Transactions
  // ---------------------------------------------------------------------------------------------

  function ValidatedRow(issues: seq<Issue>, resourceVersion: string, now: int, version: nat): Onboarding {
    Onboarding(if |issues| > 0 then ValidationFailed else AwaitingConfirmation, issues, resourceVersion, now,
               None, None, None, None, [], "", version)
  }

  /** Inserts or overwrites a dry-run result, except over an operation in progress or a managed application. */
  function SaveValidationOn(db: Db, app: Uuid, issues: seq<Issue>, resourceVersion: string, now: int)
    : Result<Committed<Onboarding>, RepositoryError>
  {
    if app !in db.applications then Err(NotFound)
    else if app !in db.rows then
      var row := ValidatedRow(issues, resourceVersion, now, 1);
      Ok(Committed(db.(rows := db.rows[app := row]), row))
    else if db.rows[app].status == Applying || db.rows[app].status == Managed then Err(Conflict)
    else
      var row := ValidatedRow(issues, resourceVersion, now, db.rows[app].version + 1);
      Ok(Committed(db.(rows := db.rows[app := row]), row))
  }

  function ApplyingRow(row: Onboarding, actor: Uuid, resourceVersion: string, now: int): Onboarding {
    row.(status := Applying, version := row.version + 1, errorCode := "", confirmedBy := Some(actor),
         confirmedAt := Some(now), resourceVersion := resourceVersion)
  }

  /** The compare-and-swap guard shared by every transition. */
  predicate At(db: Db, app: Uuid, status: Status, version: nat) {
    app in db.rows && db.rows[app].status == status && db.rows[app].version == version
  }

  function BeginApplyingOn(db: Db, app: Uuid, expected: nat, actor: Uuid, resourceVersion: string, now: int)
    : Result<Committed<Onboarding>, RepositoryError>
  {
    if app !in db.applications then Err(NotFound)
    else if !At(db, app, AwaitingConfirmation, expected) then Err(Conflict)
    else
      var row := ApplyingRow(db.rows[app], actor, resourceVersion, now);
      Ok(Committed(db.(rows := db.rows[app := row]), row))
  }

  function BeginApplyingIdempotentOn(db: Db, app: Uuid, expected: nat, resourceVersion: string, key: CommandKey,
      command: Command, now: int)
    : Result<Committed<Begin>, RepositoryError>
  {
    if key in db.commands then
      if db.commands[key].fingerprint != command.fingerprint || db.commands[key].applicationId != app
          then Err(IdempotencyKeyReuse)
      else Ok(Committed(db, Replayed(db.commands[key])))
    else if app !in db.applications then Err(NotFound)
    else if !At(db, app, AwaitingConfirmation, expected) then Err(Conflict)
    else
      var row := ApplyingRow(db.rows[app], key.actorId, resourceVersion, now);
      Ok(Committed(db.(rows := db.rows[app := row], commands := db.commands[key := command]), Begun(row)))
  }

  function CompletedCommand(c: Command, version: nat, now: int): Command {
    c.(state := Completed, onboardingStatus := Some(Managed), onboardingVersion := Some(version),
       completedAt := Some(now))
  }

  /** The accepted confirm commands of an application complete with its managed version. */
  function CompleteCommands(commands: map<CommandKey, Command>, app: Uuid, version: nat,
      now: int): map<CommandKey, Command> {
    map k | k in commands ::
      if commands[k].applicationId == app && k.operation == Confirm && commands[k].state == Accepted
      then CompletedCommand(commands[k], version, now) else commands[k]
  }

  function MarkManagedOn(db: Db, app: Uuid, expected: nat, now: int): Result<Committed<Onboarding>, RepositoryError> {
    if app !in db.applications then Err(NotFound)
    else if !At(db, app, Applying, expected) then Err(Conflict)
    else
      var row := db.rows[app].(status := Managed, version := db.rows[app].version + 1, errorCode := "",
                               managedAt := Some(now), driftDetectedAt := None, driftReasons := []);
      Ok(Committed(db.(rows := db.rows[app := row], commands := CompleteCommands(db.commands, app, row.version, now)),
          row))
  }

  function RecordOperationErrorOn(db: Db, app: Uuid, expected: nat,
      code: string): Result<Committed<Onboarding>, RepositoryError> {
    if !At(db, app, Applying, expected) then Err(Conflict)
    else if app !in db.applications then Err(NotFound)
    else
      var row := db.rows[app].(errorCode := code, version := db.rows[app].version + 1);
      Ok(Committed(db.(rows := db.rows[app := row]), row))
  }

  /** One reconciliation's drift marks: each listed managed row leaves Managed. */
  function MarkDriftOn(db: Db, drift: map<Uuid, seq<DriftReason>>, now: int): Db {
    db.(rows := map app | app in db.rows ::
      if app in drift && db.rows[app].status == Managed
      then db.rows[app].(status := ConfigurationDrift, driftDetectedAt := Some(now), driftReasons := drift[app],
                         version := db.rows[app].version + 1)
      else db.rows[app])
  }

  function DbAfter<T>(db: Db, r: Result<Committed<T>, RepositoryError>): Db {
    if r.Ok? then r.value.db else db
  }

  function ValueOf<T>(r: Result<Committed<T>, RepositoryError>): Result<T, RepositoryError> {
    if r.Ok? then Ok(r.value.value) else Err(r.error)
  }

  // ---------------------------------------------------------------------------------------------
  // The repository
  // ---------------------------------------------------------------------------------------------

  class Repository {
    var applications: set<Uuid>
    var rows: map<Uuid, Onboarding>
    var commands: map<CommandKey, Command>

    constructor (applications: set<Uuid>)
      ensures View() == Db(applications, map[], map[])
    {
      this.applications := applications;
      this.rows := map[];
      this.commands := map[];
    }

    function View(): Db
      reads this
    {
      Db(applications, rows, commands)
    }

    method SaveValidation(app: Uuid, issues: seq<Issue>, resourceVersion: string, now: int)
      returns (r: Result<Onboarding, RepositoryError>)
      modifies this`rows
      ensures r == ValueOf(SaveValidationOn(old(View()), app, issues, resourceVersion, now))
      ensures View() == DbAfter(old(View()), SaveValidationOn(old(View()), app, issues, resourceVersion, now))
    {
      if app !in applications {
        return Err(NotFound);
      }
      var version := 1;
      if app in rows {
        if rows[app].status == Applying || rows[app].status == Managed {
          return Err(Conflict);
        }
        version := rows[app].version + 1;
      }
      var status := AwaitingConfirmation;
      if |issues| > 0 {
        status := ValidationFailed;
      }
      var row := Onboarding(status, issues, resourceVersion, now, None, None, None, None, [], "", version);
      rows := rows[app := row];
      return Ok(row);
    }

    method BeginApplying(app: Uuid, expected: nat, actor: Uuid, resourceVersion: string, now: int)
      returns (r: Result<Onboarding, RepositoryError>)
      modifies this`rows
      ensures r == ValueOf(BeginApplyingOn(old(View()), app, expected, actor, resourceVersion, now))
      ensures View() == DbAfter(old(View()), BeginApplyingOn(old(View()), app, expected, actor, resourceVersion, now))
    {
      if app !in applications {
        return Err(NotFound);
      }
      if app !in rows || rows[app].status != AwaitingConfirmation || rows[app].version != expected {
        return Err(Conflict);
      }
      rows := rows[app := ApplyingRow(rows[app], actor, resourceVersion, now)];
      return Ok(rows[app]);
    }

    /** Reserves the command first; a lost compare-and-swap afterwards takes the reservation back. */
    method BeginApplyingIdempotent(app: Uuid, expected: nat, resourceVersion: string, key: CommandKey, command: Command,
        now: int)
      returns (r: Result<Begin, RepositoryError>)
      modifies this`rows, this`commands
      ensures r == ValueOf(BeginApplyingIdempotentOn(old(View()), app, expected, resourceVersion, key, command, now))
      ensures View() ==
              DbAfter(old(View()),
                      BeginApplyingIdempotentOn(old(View()), app, expected, resourceVersion, key, command, now))
    {
      var savepoint := commands;
      if key in commands {
        var persisted := commands[key];
        if persisted.fingerprint != command.fingerprint || persisted.applicationId != app {
          return Err(IdempotencyKeyReuse);
        }
        return Ok(Replayed(persisted));
      }
      commands := commands[key := command];
      if app !in applications {
        commands := savepoint;
        return Err(NotFound);
      }
      if app !in rows || rows[app].status != AwaitingConfirmation || rows[app].version != expected {
        commands := savepoint;
        return Err(Conflict);
      }
      rows := rows[app := ApplyingRow(rows[app], key.actorId, resourceVersion, now)];
      return Ok(Begun(rows[app]));
    }

    method MarkManaged(app: Uuid, expected: nat, now: int) returns (r: Result<Onboarding, RepositoryError>)
      modifies this`rows, this`commands
      ensures r == ValueOf(MarkManagedOn(old(View()), app, expected, now))
      ensures View() == DbAfter(old(View()), MarkManagedOn(old(View()), app, expected, now))
    {
      if app !in applications {
        return Err(NotFound);
      }
      if app !in rows || rows[app].status != Applying || rows[app].version != expected {
        return Err(Conflict);
      }
      var row := rows[app].(status := Managed, version := rows[app].version + 1, errorCode := "");
      row := row.(managedAt := Some(now), driftDetectedAt := None, driftReasons := []);
      rows := rows[app := row];
      commands := CompleteCommands(commands, app, row.version, now);
      return Ok(row);
    }

    method RecordOperationError(app: Uuid, expected: nat, code: string) returns (r: Result<Onboarding, RepositoryError>)
      modifies this`rows
      ensures r == ValueOf(RecordOperationErrorOn(old(View()), app, expected, code))
      ensures View() == DbAfter(old(View()), RecordOperationErrorOn(old(View()), app, expected, code))
    {
      if app !in rows || rows[app].status != Applying || rows[app].version != expected {
        return Err(Conflict);
      }
      if app !in applications {
        return Err(NotFound);
      }
      rows := rows[app := rows[app].(errorCode := code, version := rows[app].version + 1)];
      return Ok(rows[app]);
    }
  }

  // ---------------------------------------------------------------------------------------------
  // What every transaction keeps
  // ---------------------------------------------------------------------------------------------

  /** A row is either left alone or rewritten with a higher version; rows are never lost. */
  ghost predicate RowsAdvance(a: Db, b: Db) {
    forall app <- a.rows :: app in b.rows && (b.rows[app] == a.rows[app] || b.rows[app].version > a.rows[app].version)
  }

  /** Reservations are never lost, and a completed command is never rewritten. */
  ghost predicate CommandsAdvance(a: Db, b: Db) {
    forall k <- a.commands ::
      && k in b.commands && b.commands[k].applicationId == a.commands[k].applicationId
      && b.commands[k].fingerprint == a.commands[k].fingerprint
      && (a.commands[k].state == Completed ==> b.commands[k] == a.commands[k])
  }

  /**
   An accepted command belongs to an application in Applying and is the only accepted one of it; a completed
   command reports Managed at a recorded version.
   */
  ghost predicate CommandInv(db: Db) {
    && (forall k <- db.commands ::
          && k.operation == Confirm
          && (db.commands[k].state == Accepted ==>
                db.commands[k].applicationId in db.rows && db.rows[db.commands[k].applicationId].status == Applying)
          && (db.commands[k].state == Completed ==>
                db.commands[k].onboardingStatus == Some(Managed) && db.commands[k].onboardingVersion.Some?))
    && (forall j, k | j in db.commands && k in db.commands && j != k ::
          db.commands[j].state == Accepted && db.commands[k].state == Accepted ==>
            db.commands[j].applicationId != db.commands[k].applicationId)
  }

  /** A stored key is replayed for the payload it was stored with, refused for any other, and never written. */
  lemma StoredKeyDecides(db: Db, app: Uuid, expected: nat, resourceVersion: string, key: CommandKey, command: Command,
      now: int)
    requires key in db.commands
    ensures var r := BeginApplyingIdempotentOn(db, app, expected, resourceVersion, key, command, now);
            && DbAfter(db, r) == db
            && (if db.commands[key].fingerprint == command.fingerprint && db.commands[key].applicationId == app
                then r == Ok(Committed(db, Replayed(db.commands[key])))
                else r == Err(IdempotencyKeyReuse))
  {
  }

  /** A newly reserved confirm command of an application. */
  predicate FreshConfirm(app: Uuid, key: CommandKey, command: Command) {
    key.operation == Confirm && command.applicationId == app && command.state == Accepted
  }

  lemma SaveValidationKeeps(db: Db, app: Uuid, issues: seq<Issue>, resourceVersion: string, now: int)
    requires CommandInv(db)
    ensures var n := DbAfter(db, SaveValidationOn(db, app, issues, resourceVersion, now));
            CommandInv(n) && RowsAdvance(db, n) && CommandsAdvance(db, n)
  {
  }

  lemma BeginKeeps(db: Db, app: Uuid, expected: nat, actor: Uuid, resourceVersion: string, now: int)
    requires CommandInv(db)
    ensures var n := DbAfter(db, BeginApplyingOn(db, app, expected, actor, resourceVersion, now));
            CommandInv(n) && RowsAdvance(db, n) && CommandsAdvance(db, n)
  {
  }

  lemma BeginIdempotentKeeps(db: Db, app: Uuid, expected: nat, resourceVersion: string, key: CommandKey,
      command: Command, now: int)
    requires CommandInv(db) && FreshConfirm(app, key, command)
    ensures var n := DbAfter(db, BeginApplyingIdempotentOn(db, app, expected, resourceVersion, key, command, now));
            CommandInv(n) && RowsAdvance(db, n) && CommandsAdvance(db, n)
  {
    var n := DbAfter(db, BeginApplyingIdempotentOn(db, app, expected, resourceVersion, key, command, now));
    if n != db {
      forall k | k in db.commands
        ensures db.commands[k].state == Accepted ==> db.commands[k].applicationId != app
      {
        assert db.rows[app].status == AwaitingConfirmation;
      }
    }
  }

  lemma MarkManagedKeeps(db: Db, app: Uuid, expected: nat, now: int)
    requires CommandInv(db)
    ensures var n := DbAfter(db, MarkManagedOn(db, app, expected, now));
            CommandInv(n) && RowsAdvance(db, n) && CommandsAdvance(db, n)
  {
  }

  lemma RecordErrorKeeps(db: Db, app: Uuid, expected: nat, code: string)
    requires CommandInv(db)
    ensures var n := DbAfter(db, RecordOperationErrorOn(db, app, expected, code));
            CommandInv(n) && RowsAdvance(db, n) && CommandsAdvance(db, n)
  {
  }

  lemma MarkDriftKeeps(db: Db, drift: map<Uuid, seq<DriftReason>>, now: int)
    requires CommandInv(db)
    ensures var n := MarkDriftOn(db, drift, now);
            CommandInv(n) && RowsAdvance(db, n) && CommandsAdvance(db, n)
  {
  }
}
