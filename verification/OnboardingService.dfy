/**
 The onboarding use cases as one caller runs them: finishing an Applying row, recovering every Applying row
 after a restart, and confirming under an idempotency key. What Argo CD answers is a parameter.
 */
module OnboardingService {
  import opened Basics
  import opened ArgoDomain
  import opened OnboardingRepository
  import opened OnboardingCommands
  import opened OnboardingRuns

  /** Argo CD's answers while one row is finished: the fresh read, the sync mutation and the readback. */
  datatype Answers = Answers(first: Option<Application>, disableSucceeds: bool, readback: Option<Application>)

  datatype FinishResult =
    | Finished(onboarding: Onboarding)
    | PendingRecovery(onboarding: Onboarding, code: string)
    | Lost(error: RepositoryError)

  /** How finishing ends under these answers: accepted, or failed with a stable code. */
  function Outcome(t: Target, answers: Answers, now: nat): (p: Progress)
    ensures p.Failing? || p.Accepting?
  {
    var observed := AfterObservation(t, answers.first);
    var disabled := if observed.MustDisable? then AfterDisable(answers.disableSucceeds) else observed;
    if disabled.MustReadBack? then AfterReadBack(t, answers.readback, now) else disabled
  }

  function FinishDb(db: Db, t: Target, version: nat, answers: Answers, now: nat): Db {
    FinishedDb(db, Proc([Ticket(t, version, now)], Outcome(t, answers, now)), now)
  }

  /** What a finish that fails with a code reports: the row it recorded the code on, or why it could not. */
  function Unfinished(db: Db, app: Uuid, version: nat, code: string): FinishResult {
    if !At(db, app, Applying, version) then Lost(Conflict)
    else if app !in db.applications then Lost(NotFound)
    else PendingRecovery(db.rows[app].(errorCode := code, version := version + 1), code)
  }

  /** What an accepted finish reports when its row has moved on or the application is gone. */
  function LostRow(db: Db, app: Uuid): FinishResult {
    Lost(if app !in db.applications then NotFound else Conflict)
  }

  method FinishApplying(repository: Repository, t: Target, version: nat, answers: Answers, now: nat)
    returns (r: FinishResult)
    modifies repository
    ensures repository.View() == FinishDb(old(repository.View()), t, version, answers, now)
    ensures r.Finished?
            <==> Outcome(t, answers, now).Accepting? && At(old(repository.View()), t.applicationId, Applying, version)
                             && t.applicationId in old(repository.View()).applications
    ensures r.Finished? ==> r.onboarding == repository.View().rows[t.applicationId] && r.onboarding.status == Managed
    ensures r.PendingRecovery? ==>
              && t.applicationId in repository.View().rows
              && r.onboarding == repository.View().rows[t.applicationId] && r.onboarding.errorCode == r.code
    ensures !r.Finished? ==>
              if Outcome(t, answers, now).Failing?
              then r == Unfinished(old(repository.View()), t.applicationId, version, Outcome(t, answers, now).code)
              else r == LostRow(old(repository.View()), t.applicationId)
  {
    var issues := [ApplicationUnavailable];
    if answers.first.Some? {
      issues := ValidateObservation(t, answers.first.value);
    }
    if |issues| > 0 {
      r := OperationFailed(repository, t, version, "pre_mutation_validation_failed");
      return;
    }
    if answers.first.value.automatedSync {
      if !answers.disableSucceeds {
        r := OperationFailed(repository, t, version, "automated_sync_disable_failed");
        return;
      }
    }
    if answers.readback.None? {
      r := OperationFailed(repository, t, version, "readback_failed");
      return;
    }
    issues := ValidateObservation(t, answers.readback.value);
    if answers.readback.value.automatedSync {
      issues := issues + [AutomatedSyncStillActive];
    }
    if |issues| > 0 {
      r := OperationFailed(repository, t, version, "readback_validation_failed");
      return;
    }
    var managed := repository.MarkManaged(t.applicationId, version, now);
    if managed.Err? {
      return Lost(managed.error);
    }
    return Finished(managed.value);
  }

  method OperationFailed(repository: Repository, t: Target, version: nat, code: string) returns (r: FinishResult)
    modifies repository
    ensures repository.View() == DbAfter(old(repository.View()), RecordOperationErrorOn(old(repository.View()),
            t.applicationId, version, code))
    ensures r == Unfinished(old(repository.View()), t.applicationId, version, code)
    ensures r.PendingRecovery? ==>
              && t.applicationId in repository.View().rows
              && r.onboarding == repository.View().rows[t.applicationId] && r.onboarding.errorCode == code
  {
    var recorded := repository.RecordOperationError(t.applicationId, version, code);
    if recorded.Err? {
      return Lost(recorded.error);
    }
    return PendingRecovery(recorded.value, code);
  }

  // ---------------------------------------------------------------------------------------------
  // Recovery
  // ---------------------------------------------------------------------------------------------

  /** One listed row, what Argo CD answers while it is finished and when it is closed. */
  datatype Item = Item(target: Target, answers: Answers, at: nat)

  function OutcomeOf(item: Item): (p: Progress)
    ensures p.Failing? || p.Accepting?
  {
    Outcome(item.target, item.answers, item.at)
  }

  ghost predicate ItemsAreListed(listed: Db, items: seq<Item>) {
    forall item <- items :: item.target.applicationId in listed.rows
  }

  /** The tables after finishing one item at a version. */
  function ItemDb(db: Db, item: Item, version: nat): Db {
    FinishDb(db, item.target, version, item.answers, item.at)
  }

  /** The tables after finishing the first n listed rows at the versions read when the list was taken. */
  function RecoverOn(listed: Db, items: seq<Item>, n: nat): Db
    requires n <= |items| && ItemsAreListed(listed, items)
  {
    if n == 0 then listed
    else ItemDb(RecoverOn(listed, items, n - 1), items[n - 1], listed.rows[items[n - 1].target.applicationId].version)
  }

  /** The listing of Applying rows: one loadable target a row, in whatever order. */
  ghost predicate IsRecoveryList(db: Db, items: seq<Item>) {
    && (forall item <- items ::
          (item.target.applicationId in db.rows && db.rows[item.target.applicationId].status == Applying))
    && (forall app <- db.rows :: db.rows[app].status == Applying ==> IsItem(items, app))
    && (forall i, j | 0 <= i < j < |items| :: items[i].target.applicationId != items[j].target.applicationId)
  }

  ghost predicate IsItem(items: seq<Item>, app: Uuid) {
    exists i :: 0 <= i < |items| && items[i].target.applicationId == app
  }

  /** Whether an item ends Managed. */
  predicate ItemFinishes(listed: Db, item: Item) {
    OutcomeOf(item).Accepting? && item.target.applicationId in listed.applications
  }

  predicate AllFinish(listed: Db, items: seq<Item>) {
    forall item <- items :: ItemFinishes(listed, item)
  }

  lemma AllFinishNext(listed: Db, items: seq<Item>, i: nat)
    requires i < |items|
    ensures AllFinish(listed, items[..i + 1]) <==> AllFinish(listed, items[..i]) && ItemFinishes(listed, items[i])
  {
    assert items[..i + 1] == items[..i] + [items[i]];
  }

  /** Finishes every listed row; an item that fails is counted and the loop goes on. */
  method RecoverApplying(repository: Repository, items: seq<Item>) returns (failures: nat)
    requires IsRecoveryList(repository.View(), items)
    modifies repository
    ensures repository.View() == RecoverOn(old(repository.View()), items, |items|)
    ensures failures == 0 <==> AllFinish(old(repository.View()), items)
  {
    var values := repository.rows;
    ghost var listed := repository.View();
    failures := 0;
    for i := 0 to |items|
      invariant repository.View() == RecoverOn(listed, items, i)
      invariant failures == 0 <==> AllFinish(listed, items[..i])
    {
      assert items[i] in items;
      AllFinishNext(listed, items, i);
      ItemMeetsItsRow(listed, items, i);
      var t := items[i].target;
      var finished := FinishApplying(repository, t, values[t.applicationId].version, items[i].answers, items[i].at);
      if !finished.Finished? {
        failures := failures + 1;
      }
    }
    assert items[..|items|] == items;
  }

  /** What one pass makes of a listed row. */
  function RecoveredRow(row: Onboarding, outcome: Progress, now: int): Onboarding
    requires outcome.Failing? || outcome.Accepting?
  {
    if outcome.Accepting?
    then row.(status := Managed, version := row.version + 1, errorCode := "", managedAt := Some(now),
              driftDetectedAt := None, driftReasons := [])
    else row.(errorCode := outcome.code, version := row.version + 1)
  }

  /** The row and commands of one application are as they were, and so are the tables' keys. */
  ghost predicate Untouched(before: Db, after: Db, app: Uuid) {
    && after.applications == before.applications && after.commands.Keys == before.commands.Keys
    && (app in before.rows <==> app in after.rows)
    && (app in before.rows ==> after.rows[app] == before.rows[app])
    && (forall k <- before.commands | before.commands[k].applicationId == app ::
          after.commands[k] == before.commands[k])
    && (forall k <- before.commands :: after.commands[k].applicationId == before.commands[k].applicationId)
  }

  /** Finishing one row leaves every other application's row and commands alone. */
  lemma FinishTouchesOneApplication(db: Db, t: Target, version: nat, answers: Answers, now: nat, other: Uuid)
    requires other != t.applicationId
    ensures Untouched(db, FinishDb(db, t, version, answers, now), other)
  {
  }

  lemma UntouchedComposes(a: Db, b: Db, c: Db, app: Uuid)
    requires Untouched(a, b, app) && Untouched(b, c, app)
    ensures Untouched(a, c, app)
  {
  }

  lemma {:induction false} OtherItemsLeaveAlone(listed: Db, items: seq<Item>, m: nat, n: nat, app: Uuid)
    requires m <= n <= |items| && ItemsAreListed(listed, items)
    requires forall i | m <= i < n :: items[i].target.applicationId != app
    ensures Untouched(RecoverOn(listed, items, m), RecoverOn(listed, items, n), app)
    decreases n - m
  {
    if m < n {
      OtherItemsLeaveAlone(listed, items, m, n - 1, app);
      var prior, item := RecoverOn(listed, items, n - 1), items[n - 1];
      var version := listed.rows[item.target.applicationId].version;
      FinishTouchesOneApplication(prior, item.target, version, item.answers, item.at, app);
      UntouchedComposes(RecoverOn(listed, items, m), prior, ItemDb(prior, item, version), app);
    }
  }

  /** When its turn comes an item finds its own row as it was listed. */
  lemma ItemMeetsItsRow(listed: Db, items: seq<Item>, i: nat)
    requires IsRecoveryList(listed, items) && i < |items|
    ensures ItemsAreListed(listed, items)
    ensures Untouched(listed, RecoverOn(listed, items, i), items[i].target.applicationId)
    ensures var app := items[i].target.applicationId;
            At(RecoverOn(listed, items, i), app, Applying, listed.rows[app].version)
  {
    assert items[i] in items;
    OtherItemsLeaveAlone(listed, items, 0, i, items[i].target.applicationId);
  }

  /** The commands of an application after finishing it: the accepted confirmations complete when it is accepted. */
  ghost predicate CommandsSettled(before: Db, after: Db, app: Uuid, accepted: bool, version: nat, now: nat) {
    && after.commands.Keys == before.commands.Keys
    && (forall k <- before.commands :: after.commands[k].applicationId == before.commands[k].applicationId)
    && forall k <- before.commands :: before.commands[k].applicationId == app ==>
         after.commands[k] == (if accepted && k.operation == Confirm && before.commands[k].state == Accepted
                               then CompletedCommand(before.commands[k], version, now) else before.commands[k])
  }

  /** The row and the commands of one application are what its own answers make of them. */
  ghost predicate Settled(before: Db, after: Db, app: Uuid, outcome: Progress, now: nat)
    requires outcome.Failing? || outcome.Accepting?
  {
    && app in before.rows && app in after.rows && after.rows[app] == RecoveredRow(before.rows[app], outcome, now)
    && CommandsSettled(before, after, app, outcome.Accepting?, before.rows[app].version + 1, now)
  }

  /** Finishing an Applying row at its current version settles it by its own answers. */
  lemma FinishSettlesOneApplication(db: Db, t: Target, version: nat, answers: Answers, now: nat)
    requires t.applicationId in db.applications && At(db, t.applicationId, Applying, version)
    ensures Settled(db, FinishDb(db, t, version, answers, now), t.applicationId, Outcome(t, answers, now), now)
  {
  }

  /** What happens to other applications before and after does not show. */
  lemma SettledBetween(listed: Db, before: Db, mid: Db, after: Db, app: Uuid, outcome: Progress, now: nat)
    requires outcome.Failing? || outcome.Accepting?
    requires Untouched(listed, before, app) && Settled(before, mid, app, outcome, now) && Untouched(mid, after, app)
    ensures Settled(listed, after, app, outcome, now)
  {
  }

  /**
   Failure isolation. After one pass every listed row is what its own answers make of it: Managed, or the same
   row with its own error code and version. No item's failure shows in another item's row or commands.
   */
  lemma RecoveryIsIsolated(listed: Db, items: seq<Item>, i: nat)
    requires IsRecoveryList(listed, items) && listed.rows.Keys <= listed.applications && i < |items|
    ensures ItemsAreListed(listed, items)
    ensures Settled(listed, RecoverOn(listed, items, |items|), items[i].target.applicationId, OutcomeOf(items[i]),
            items[i].at)
  {
    var item := items[i];
    var app := item.target.applicationId;
    assert item in items;
    ItemMeetsItsRow(listed, items, i);
    OtherItemsLeaveAlone(listed, items, i + 1, |items|, app);
    var before := RecoverOn(listed, items, i);
    FinishSettlesOneApplication(before, item.target, listed.rows[app].version, item.answers, item.at);
    SettledBetween(listed, before, RecoverOn(listed, items, i + 1), RecoverOn(listed, items, |items|), app,
        OutcomeOf(item), item.at);
  }

  /** The pass reports no failure exactly when every listed row has become Managed. */
  lemma PassSucceedsIff(listed: Db, items: seq<Item>)
    requires IsRecoveryList(listed, items) && listed.rows.Keys <= listed.applications
    ensures ItemsAreListed(listed, items)
    ensures var after := RecoverOn(listed, items, |items|);
            AllFinish(listed, items) <==> forall item <- items ::
              item.target.applicationId in after.rows && after.rows[item.target.applicationId].status == Managed
  {
    var after := RecoverOn(listed, items, |items|);
    forall item | item in items
      ensures ItemFinishes(listed, item)
              <==> && item.target.applicationId in after.rows
                   && after.rows[item.target.applicationId].status == Managed
    {
      var i :| 0 <= i < |items| && items[i] == item;
      RecoveryIsIsolated(listed, items, i);
    }
  }

  lemma NotListedIsUntouched(listed: Db, items: seq<Item>, app: Uuid)
    requires IsRecoveryList(listed, items) && !IsItem(items, app)
    ensures ItemsAreListed(listed, items) && Untouched(listed, RecoverOn(listed, items, |items|), app)
  {
    forall i | 0 <= i < |items|
      ensures items[i].target.applicationId != app
    {
      assert !IsItem(items, app);
    }
    OtherItemsLeaveAlone(listed, items, 0, |items|, app);
  }

  /** One application and one command after a pass in which every item is accepted. */
  lemma NothingIsLeft(listed: Db, items: seq<Item>, app: Uuid)
    requires IsRecoveryList(listed, items) && listed.rows.Keys <= listed.applications && CommandInv(listed)
    requires forall item <- items :: OutcomeOf(item).Accepting?
    ensures ItemsAreListed(listed, items)
    ensures var after := RecoverOn(listed, items, |items|);
            && (app in listed.rows ==> app in after.rows && after.rows[app].status != Applying)
            && (forall k <- listed.commands :: listed.commands[k].applicationId == app ==>
                  k in after.commands && after.commands[k].state == Completed)
  {
    if IsItem(items, app) {
      var i: nat :| i < |items| && items[i].target.applicationId == app;
      assert items[i] in items;
      RecoveryIsIsolated(listed, items, i);
    } else {
      NotListedIsUntouched(listed, items, app);
    }
  }

  /**
   Recovery completes. If every listed row's answers match, one pass leaves no row Applying and no confirm
   command Accepted.
   */
  lemma RecoveryFinishesEverything(listed: Db, items: seq<Item>)
    requires IsRecoveryList(listed, items) && listed.rows.Keys <= listed.applications && CommandInv(listed)
    requires forall item <- items :: OutcomeOf(item).Accepting?
    ensures ItemsAreListed(listed, items)
    ensures var after := RecoverOn(listed, items, |items|);
            && (forall app <- listed.rows :: app in after.rows && after.rows[app].status != Applying)
            && (forall k <- listed.commands :: k in after.commands && after.commands[k].state == Completed)
  {
    forall app | app in listed.rows
      ensures app in RecoverOn(listed, items, |items|).rows
              && RecoverOn(listed, items, |items|).rows[app].status != Applying
    {
      NothingIsLeft(listed, items, app);
    }
    forall k | k in listed.commands
      ensures k in RecoverOn(listed, items, |items|).commands
              && RecoverOn(listed, items, |items|).commands[k].state == Completed
    {
      NothingIsLeft(listed, items, listed.commands[k].applicationId);
    }
  }

  /** The answers that let a row finish: a matching read, a mutation that succeeds when needed, a clean readback. */
  lemma OutcomeAccepts(t: Target, answers: Answers, now: nat)
    ensures Outcome(t, answers, now).Accepting?
            <==> && answers.first.Some? && Issues(t, answers.first.value) == []
                 && (answers.first.value.automatedSync ==> answers.disableSucceeds)
                 && answers.readback.Some? && CleanReadback(t, answers.readback.value)
  {
  }

  // ---------------------------------------------------------------------------------------------
  // Confirming under an idempotency key
  // ---------------------------------------------------------------------------------------------

  datatype ConfirmResult =
    | TargetNotFound
    | NotValidated(onboarding: Onboarding)
    | BadCommand
    | Refused(error: RepositoryError)
    | InProgress
    | AlreadyManaged(status: Status, version: nat)
    | Confirmed(finish: FinishResult)

  /** The issues of the fresh read, with the update permission when it is missing. */
  function FreshIssues(t: Target, answer: Option<Application>, mayUpdate: bool): seq<Issue> {
    if answer.None? then [ApplicationUnavailable]
    else Issues(t, answer.value) + When(!mayUpdate, UpdatePermissionDenied)
  }

  function ResourceVersionOf(answer: Option<Application>): string {
    if answer.Some? then answer.value.resourceVersion else ""
  }

  /** A confirmation that fails validation reports the stored result, or that it could not be stored. */
  function SavedResult(saved: Result<Committed<Onboarding>, RepositoryError>): ConfirmResult {
    if saved.Ok? then NotValidated(saved.value.value) else Refused(saved.error)
  }

  function DereferenceVersion(version: Option<nat>): nat {
    if version.Some? then version.value else 0
  }

  /** What a replay reports: the recorded outcome, or that the first confirmation is still under way. */
  function ReplayResult(c: Command): ConfirmResult {
    if c.state == Completed && c.onboardingStatus.Some?
    then AlreadyManaged(c.onboardingStatus.value, DereferenceVersion(c.onboardingVersion))
    else InProgress
  }

  /** A confirmation that passed validation: the tables before and after it, and what it returns. */
  ghost predicate ConfirmsOnce(before: Db, after: Db, r: ConfirmResult, t: Target, answers: Answers, now: nat,
      resourceVersion: string, made: Result<(CommandKey, Command), CommandError>, expected: nat)
  {
    if made.Err? then r == BadCommand && after == before
    else
      var begun := BeginApplyingIdempotentOn(before, t.applicationId, expected, resourceVersion, made.value.0,
          made.value.1, now);
      if begun.Err? then r == Refused(begun.error) && after == before
      else if begun.value.value.Replayed? then r == ReplayResult(begun.value.value.command) && after == before
      else
        && after == FinishDb(begun.value.db, t, expected + 1, answers, now)
        && r.Confirmed? && (r.finish.Finished? <==> Outcome(t, answers, now).Accepting?)
        && (r.finish.Lost? || (t.applicationId in after.rows && r.finish.onboarding == after.rows[t.applicationId]))
        && (r.finish.PendingRecovery? ==> r.finish.code == Outcome(t, answers, now).code)
  }

  /** The identity of a confirmation is complete: both identifiers, a trimmed key of fitting length and a version. */
  predicate IsWellFormed(trim: string -> string, user: Uuid, app: Uuid, key: string, expected: nat) {
    user != NIL_UUID && app != NIL_UUID && trim(key) != "" && |trim(key)| <= 255 && expected > 0
  }

  /**
   The answer to a key that is stored already. The request is the stored one exactly when the texts that are hashed are
   equal, that is, actor, application, operation and version are; it is then replayed. Another version or another
   application under the key is refused. Nothing is written either way.
   */
  ghost predicate AnswersUsedKey(before: Db, after: Db, r: ConfirmResult, key: CommandKey, request: Fingerprint)
    requires key in before.commands
  {
    var stored := before.commands[key];
    && after == before
    && (Canonical(stored.fingerprint) == Canonical(request) && stored.applicationId == request.applicationId ==>
          r == ReplayResult(stored))
    && (stored.fingerprint.expectedVersion != request.expectedVersion || stored.applicationId != request.applicationId
        || stored.fingerprint.applicationId != request.applicationId
        || stored.fingerprint.actorId != request.actorId || stored.fingerprint.operation != request.operation ==>
          r == Refused(IdempotencyKeyReuse))
  }

  lemma UsedKeyIsAnswered(before: Db, after: Db, r: ConfirmResult, t: Target, answers: Answers, now: nat,
      resourceVersion: string, trim: string -> string, user: Uuid, key: string, expected: nat)
    requires IsWellFormed(trim, user, t.applicationId, key, expected)
    requires CommandKey(user, Operation.Confirm, trim(key)) in before.commands
    requires ConfirmsOnce(before, after, r, t, answers, now, resourceVersion,
                          NewCommand(trim, user, t.applicationId, Operation.Confirm, key, Some(expected)), expected)
    ensures AnswersUsedKey(before, after, r, CommandKey(user, Operation.Confirm, trim(key)),
                           Fingerprint(user, t.applicationId, Operation.Confirm, Some(expected)))
  {
    var (k, command) := NewCommand(trim, user, t.applicationId, Operation.Confirm, key, Some(expected)).value;
    StoredKeyDecides(before, t.applicationId, expected, resourceVersion, k, command, now);
    if Canonical(before.commands[k].fingerprint) == Canonical(command.fingerprint) {
      CanonicalInjective(before.commands[k].fingerprint, command.fingerprint);
    }
  }

  /**
   Confirms once a key. The contract names every outcome: a replay writes nothing and reports what the first
   confirmation recorded; a new confirmation enters Applying once and then finishes at that version.
   */
  method ConfirmIdempotent(repository: Repository, user: Uuid, target: Option<Target>, authorized: bool,
                           observed: Option<Application>, mayUpdate: bool, expected: nat, trim: string -> string,
                           idempotencyKey: string, answers: Answers, now: nat)
    returns (r: ConfirmResult)
    modifies repository
    ensures target.None? || !authorized ==> r == TargetNotFound && repository.View() == old(repository.View())
    ensures target.Some? && authorized && FreshIssues(target.value, observed, mayUpdate) != [] ==>
              && repository.View() == DbAfter(old(repository.View()), SaveValidationOn(old(repository.View()),
                  target.value.applicationId,
                   FreshIssues(target.value, observed, mayUpdate), ResourceVersionOf(observed), now))
              && r == SavedResult(SaveValidationOn(old(repository.View()), target.value.applicationId,
                   FreshIssues(target.value, observed, mayUpdate), ResourceVersionOf(observed), now))
    ensures target.Some? && authorized && FreshIssues(target.value, observed, mayUpdate) == [] ==>
              ConfirmsOnce(old(repository.View()), repository.View(), r, target.value, answers, now,
                  ResourceVersionOf(observed),
                           NewCommand(trim, user, target.value.applicationId, Operation.Confirm, idempotencyKey,
                               Some(expected)), expected)
    ensures target.Some? && authorized && FreshIssues(target.value, observed, mayUpdate) == []
            && IsWellFormed(trim, user, target.value.applicationId, idempotencyKey, expected)
            && CommandKey(user, Operation.Confirm, trim(idempotencyKey)) in old(repository.View()).commands ==>
              AnswersUsedKey(old(repository.View()), repository.View(), r,
                             CommandKey(user, Operation.Confirm, trim(idempotencyKey)),
                             Fingerprint(user, target.value.applicationId, Operation.Confirm, Some(expected)))
  {
    if target.None? || !authorized {
      return TargetNotFound;
    }
    var t := target.value;
    var issues := [ApplicationUnavailable];
    if observed.Some? {
      issues := ValidateObservation(t, observed.value);
      issues := AppendWhen(issues, !mayUpdate, UpdatePermissionDenied);
    }
    if |issues| > 0 {
      var saved := repository.SaveValidation(t.applicationId, issues, ResourceVersionOf(observed), now);
      if saved.Err? {
        return Refused(saved.error);
      }
      return NotValidated(saved.value);
    }
    var made := NewCommand(trim, user, t.applicationId, Operation.Confirm, idempotencyKey, Some(expected));
    ghost var before := repository.View();
    r := ConfirmValidated(repository, t, answers, now, ResourceVersionOf(observed), made, expected);
    if IsWellFormed(trim, user, t.applicationId, idempotencyKey, expected)
       && CommandKey(user, Operation.Confirm, trim(idempotencyKey)) in before.commands {
      UsedKeyIsAnswered(before, repository.View(), r, t, answers, now, ResourceVersionOf(observed), trim, user,
                        idempotencyKey, expected);
    }
  }

  /** Reserves the key and enters Applying in one transaction, then finishes; a replay stops there. */
  method ConfirmValidated(repository: Repository, t: Target, answers: Answers, now: nat, resourceVersion: string,
                          made: Result<(CommandKey, Command), CommandError>, expected: nat)
    returns (r: ConfirmResult)
    requires made.Ok? ==> made.value.1.applicationId == t.applicationId
    modifies repository
    ensures ConfirmsOnce(old(repository.View()), repository.View(), r, t, answers, now, resourceVersion, made, expected)
  {
    if made.Err? {
      return BadCommand;
    }
    var begun := repository.BeginApplyingIdempotent(t.applicationId, expected, resourceVersion, made.value.0,
        made.value.1, now);
    if begun.Err? {
      return Refused(begun.error);
    }
    if begun.value.Replayed? {
      var persisted := begun.value.command;
      if persisted.state == Completed && persisted.onboardingStatus.Some? {
        return AlreadyManaged(persisted.onboardingStatus.value, DereferenceVersion(persisted.onboardingVersion));
      }
      return InProgress;
    }
    var finish := FinishApplying(repository, t, begun.value.onboarding.version, answers, now);
    return Confirmed(finish);
  }
}
