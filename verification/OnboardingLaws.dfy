/** What each onboarding transaction does to which column, and when it is refused, without naming the transactions. */
module OnboardingLaws {
  import opened Basics
  import opened ArgoDomain
  import opened OnboardingRepository
  import opened OnboardingCommands
  import opened OnboardingRuns
  import opened OnboardingService

  // ---------------------------------------------------------------------------------------------
  // Rows
  // ---------------------------------------------------------------------------------------------

  /** One row is written or inserted; every other row and the applications are as they were. */
  ghost predicate WritesRow(before: Db, after: Db, app: Uuid) {
    && after.applications == before.applications
    && after.rows.Keys == before.rows.Keys + {app}
    && forall other <- before.rows | other != app :: after.rows[other] == before.rows[other]
  }

  /** A row with nothing confirmed, managed, drifted or failed. */
  ghost predicate Untried(row: Onboarding) {
    && row.confirmedBy == None && row.confirmedAt == None && row.managedAt == None
    && row.driftDetectedAt == None && row.driftReasons == [] && row.errorCode == ""
  }

  /** What a validation leaves alone or is refused for, and the row it stores. */
  lemma ValidationWrites(db: Db, app: Uuid, issues: seq<Issue>, resourceVersion: string, now: int)
    ensures var r := SaveValidationOn(db, app, issues, resourceVersion, now);
            if app !in db.applications then r == Err(NotFound)
            else if app in db.rows && (db.rows[app].status == Applying || db.rows[app].status == Managed)
            then r == Err(Conflict)
            else
              && r.Ok? && WritesRow(db, r.value.db, app) && r.value.db.commands == db.commands
              && var row := r.value.db.rows[app];
                 && r.value.value == row && Untried(row)
                 && row.status == (if issues == [] then AwaitingConfirmation else ValidationFailed)
                 && row.issues == issues && row.resourceVersion == resourceVersion && row.validatedAt == now
                 && row.version == (if app in db.rows then db.rows[app].version + 1 else 1)
  {
  }

  /** A row that goes from AwaitingConfirmation to Applying: who confirmed it, when and against which read. */
  ghost predicate Confirmed(before: Onboarding, after: Onboarding, actor: Uuid, resourceVersion: string, now: int) {
    && before.status == AwaitingConfirmation && after.status == Applying && after.version == before.version + 1
    && after.confirmedBy == Some(actor) && after.confirmedAt == Some(now) && after.resourceVersion == resourceVersion
    && after.errorCode == "" && after.issues == before.issues && after.validatedAt == before.validatedAt
    && after.managedAt == before.managedAt
    && after.driftDetectedAt == before.driftDetectedAt && after.driftReasons == before.driftReasons
  }

  lemma ConfirmationWrites(db: Db, app: Uuid, expected: nat, actor: Uuid, resourceVersion: string, now: int)
    ensures var r := BeginApplyingOn(db, app, expected, actor, resourceVersion, now);
            if app !in db.applications then r == Err(NotFound)
            else if app !in db.rows || db.rows[app].status != AwaitingConfirmation || db.rows[app].version != expected
            then r == Err(Conflict)
            else
              && r.Ok? && WritesRow(db, r.value.db, app) && r.value.db.commands == db.commands
              && r.value.value == r.value.db.rows[app]
              && Confirmed(db.rows[app], r.value.db.rows[app], actor, resourceVersion, now)
  {
  }

  /** The same under a key that is not stored yet: the key is stored with the command, and nothing else. */
  lemma FreshKeyWrites(db: Db, app: Uuid, expected: nat, resourceVersion: string, key: CommandKey, command: Command,
                       now: int)
    requires key !in db.commands
    ensures var r := BeginApplyingIdempotentOn(db, app, expected, resourceVersion, key, command, now);
            if app !in db.applications then r == Err(NotFound)
            else if app !in db.rows || db.rows[app].status != AwaitingConfirmation || db.rows[app].version != expected
            then r == Err(Conflict)
            else
              && r.Ok? && WritesRow(db, r.value.db, app) && r.value.value == Begun(r.value.db.rows[app])
              && Confirmed(db.rows[app], r.value.db.rows[app], key.actorId, resourceVersion, now)
              && r.value.db.commands.Keys == db.commands.Keys + {key} && r.value.db.commands[key] == command
              && forall k <- db.commands :: r.value.db.commands[k] == db.commands[k]
  {
  }

  /** A command that a completion turns into the record of its outcome. */
  ghost predicate Completes(before: Command, after: Command, version: nat, now: int) {
    && after.applicationId == before.applicationId && after.fingerprint == before.fingerprint
    && after.state == Completed && after.onboardingStatus == Some(Managed)
    && after.onboardingVersion == Some(version) && after.completedAt == Some(now)
  }

  lemma CompletionWrites(db: Db, app: Uuid, expected: nat, now: int)
    ensures var r := MarkManagedOn(db, app, expected, now);
            if app !in db.applications then r == Err(NotFound)
            else if app !in db.rows || db.rows[app].status != Applying || db.rows[app].version != expected
            then r == Err(Conflict)
            else
              && r.Ok? && WritesRow(db, r.value.db, app) && r.value.value == r.value.db.rows[app]
              && var before, after := db.rows[app], r.value.db.rows[app];
                 && after.status == Managed && after.version == expected + 1 && after.managedAt == Some(now)
                 && after.errorCode == "" && after.driftDetectedAt == None && after.driftReasons == []
                 && after.confirmedBy == before.confirmedBy && after.confirmedAt == before.confirmedAt
                 && after.issues == before.issues && after.resourceVersion == before.resourceVersion
                 && after.validatedAt == before.validatedAt
  {
  }

  lemma CompletionCompletes(db: Db, app: Uuid, expected: nat, now: int)
    requires MarkManagedOn(db, app, expected, now).Ok?
    ensures var after := MarkManagedOn(db, app, expected, now).value.db.commands;
            && after.Keys == db.commands.Keys
            && forall k <- db.commands ::
                 if db.commands[k].applicationId == app && k.operation == Confirm && db.commands[k].state == Accepted
                 then Completes(db.commands[k], after[k], expected + 1, now)
                 else after[k] == db.commands[k]
  {
  }

  lemma ErrorWrites(db: Db, app: Uuid, expected: nat, code: string)
    ensures var r := RecordOperationErrorOn(db, app, expected, code);
            if app !in db.rows || db.rows[app].status != Applying || db.rows[app].version != expected
            then r == Err(Conflict)
            else if app !in db.applications then r == Err(NotFound)
            else
              && r.Ok? && WritesRow(db, r.value.db, app) && r.value.db.commands == db.commands
              && r.value.value == r.value.db.rows[app]
              && r.value.value.version == expected + 1 && r.value.value.errorCode == code
              && r.value.value == db.rows[app].(version := r.value.value.version, errorCode := r.value.value.errorCode)
  {
  }

  lemma DriftWrites(db: Db, drift: map<Uuid, seq<DriftReason>>, now: int)
    ensures var after := MarkDriftOn(db, drift, now);
            && after.applications == db.applications && after.commands == db.commands
            && after.rows.Keys == db.rows.Keys
            && forall app <- db.rows ::
                 if app in drift && db.rows[app].status == Managed
                 then && after.rows[app].status == ConfigurationDrift
                      && after.rows[app].driftDetectedAt == Some(now) && after.rows[app].driftReasons == drift[app]
                      && after.rows[app].version == db.rows[app].version + 1
                      && after.rows[app].managedAt == db.rows[app].managedAt
                      && after.rows[app].confirmedBy == db.rows[app].confirmedBy
                      && after.rows[app].confirmedAt == db.rows[app].confirmedAt
                      && after.rows[app].issues == db.rows[app].issues
                      && after.rows[app].resourceVersion == db.rows[app].resourceVersion
                      && after.rows[app].validatedAt == db.rows[app].validatedAt
                      && after.rows[app].errorCode == db.rows[app].errorCode
                 else after.rows[app] == db.rows[app]
  {
  }

  // ---------------------------------------------------------------------------------------------
  // Keys and payloads
  // ---------------------------------------------------------------------------------------------

  /** Which commands are well formed, and what is stored for them: a confirmation has a version, a dry run none. */
  lemma CommandMeans(trim: string -> string, actor: Uuid, app: Uuid, operation: Operation, key: string,
                     expected: Option<nat>)
    ensures var made := NewCommand(trim, actor, app, operation, key, expected);
            && (made.Ok? <==>
                && actor != 0 && app != 0 && 1 <= |trim(key)| <= 255
                && if operation == Operation.Confirm then expected !in {None, Some(0)} else expected == None)
            && (made.Ok? ==>
                  && made.value.0 == CommandKey(actor, operation, trim(key))
                  && made.value.1.applicationId == app && made.value.1.state == Accepted
                  && made.value.1.fingerprint.actorId == actor && made.value.1.fingerprint.applicationId == app
                  && made.value.1.fingerprint.operation == operation
                  && made.value.1.fingerprint.expectedVersion == expected
                  && made.value.1.onboardingStatus == None && made.value.1.onboardingVersion == None
                  && made.value.1.completedAt == None)
  {
  }

  /**
   Over a whole run: once a key is stored, at every later moment a confirmation under it is a replay exactly when it
   asks for what was stored; any other is refused, and neither writes anything.
   */
  lemma StoredKeyDecidesForGood(r: Run, i: nat, j: nat, k: CommandKey, app: Uuid, expected: nat,
                                resourceVersion: string, command: Command, now: int)
    requires Valid(r) && i <= j < |r.states| && k in r.states[i].db.commands
    ensures var stored, db := r.states[i].db.commands[k], r.states[j].db;
            var result := BeginApplyingIdempotentOn(db, app, expected, resourceVersion, k, command, now);
            && DbAfter(db, result) == db
            && (if stored.fingerprint == command.fingerprint && stored.applicationId == app
                then result.Ok? && k in db.commands && result.value.value == Replayed(db.commands[k])
                else result == Err(IdempotencyKeyReuse))
  {
    RowsAdvanceOverRun(r, i, j);
    StoredKeyDecides(r.states[j].db, app, expected, resourceVersion, k, command, now);
  }

  // ---------------------------------------------------------------------------------------------
  // Finishing
  // ---------------------------------------------------------------------------------------------

  /** The issues and the resource version a fresh read gives, and what is reported when it has issues. */
  lemma FreshReadMeans(t: Target, o: Application, mayUpdate: bool)
    ensures FreshIssues(t, None, mayUpdate) == [ApplicationUnavailable] && ResourceVersionOf(None) == ""
    ensures FreshIssues(t, Some(o), true) == Issues(t, o) && ResourceVersionOf(Some(o)) == o.resourceVersion
    ensures FreshIssues(t, Some(o), false) == Issues(t, o) + [UpdatePermissionDenied]
    ensures forall saved :: match SavedResult(saved)
              case NotValidated(row) => saved.Ok? && row == saved.value.value
              case Refused(e) => saved == Err(e)
              case _ => false
  {
  }

  /** The stable code of every way a finish fails, in the order the facts are looked at. */
  lemma OutcomeCodes(t: Target, answers: Answers, now: nat)
    ensures Outcome(t, answers, now).Failing? ==>
              Outcome(t, answers, now).code ==
              if answers.first.None? || Issues(t, answers.first.value) != [] then "pre_mutation_validation_failed"
              else if answers.first.value.automatedSync && !answers.disableSucceeds then "automated_sync_disable_failed"
              else if answers.readback.None? then "readback_failed"
              else "readback_validation_failed"
  {
  }

  /** What a failed finish reports: the row with its code and the next version, or why none could be written. */
  lemma UnfinishedReports(db: Db, app: Uuid, version: nat, code: string)
    ensures var r := Unfinished(db, app, version, code);
            if app !in db.rows || db.rows[app].status != Applying || db.rows[app].version != version
            then r == Lost(RepositoryError.Conflict)
            else if app !in db.applications then r == Lost(RepositoryError.NotFound)
            else r.PendingRecovery? && r.code == code
                 && r.onboarding == db.rows[app].(errorCode := code, version := version + 1)
    ensures LostRow(db, app) == Lost(if app in db.applications then RepositoryError.Conflict
                                     else RepositoryError.NotFound)
  {
  }

  /** The stored outcome of a completed confirmation is what its replay reports. */
  lemma ReplayReportsOutcome(c: Command)
    ensures c.state == Completed && c.onboardingStatus.Some? && c.onboardingVersion.Some? ==>
              ReplayResult(c) == AlreadyManaged(c.onboardingStatus.value, c.onboardingVersion.value)
    ensures c.state == Accepted ==> ReplayResult(c) == InProgress
  {
  }
}
