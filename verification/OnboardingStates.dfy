/** The state machine an onboarding row follows over any run, and what its columns say in each status. */
module OnboardingStates {
  import opened Basics
  import opened ArgoDomain
  import opened OnboardingRepository
  import opened OnboardingRuns
  import Reconciliation

  /** The columns that go with each status. */
  ghost predicate ColumnsMatchStatus(row: Onboarding) {
    && row.version >= 1
    && (row.status.ValidationFailed? <==> row.issues != [])
    && (row.confirmedBy.Some? <==> row.status.Applying? || row.status.Managed? || row.status.ConfigurationDrift?)
    && (row.confirmedAt.Some? <==> row.confirmedBy.Some?)
    && (row.managedAt.Some? <==> row.status.Managed? || row.status.ConfigurationDrift?)
    && (row.driftDetectedAt.Some? <==> row.status.ConfigurationDrift?)
    && (row.driftReasons != [] <==> row.status.ConfigurationDrift?)
    && (row.errorCode != "" ==> row.status.Applying?)
  }

  ghost predicate ColumnsMatch(db: Db) {
    forall app <- db.rows :: ColumnsMatchStatus(db.rows[app])
  }

  /** The moves of one row: validation anywhere outside an operation, confirmation, retry, completion, drift. */
  ghost predicate LegalMove(a: Onboarding, b: Onboarding) {
    || a == b
    || (b.version == a.version + 1
        && match b.status
           case ValidationFailed => !a.status.Applying? && !a.status.Managed?
           case AwaitingConfirmation => !a.status.Applying? && !a.status.Managed?
           case Applying =>
             || a.status.AwaitingConfirmation?
             || (a.status.Applying? && b == a.(errorCode := b.errorCode, version := b.version))
           case Managed => a.status.Applying? && b.confirmedBy == a.confirmedBy && b.confirmedAt == a.confirmedAt
           case ConfigurationDrift => a.status.Managed? && b.managedAt == a.managedAt && b.confirmedBy == a.confirmedBy)
  }

  ghost predicate LegalMoves(a: Db, b: Db) {
    && (forall app <- a.rows :: app in b.rows && LegalMove(a.rows[app], b.rows[app]))
    && (forall app <- b.rows | app !in a.rows :: b.rows[app].version == 1)
    && (forall app <- b.rows | app !in a.rows ::
          (b.rows[app].status.ValidationFailed? || b.rows[app].status.AwaitingConfirmation?))
  }

  /** A reconciliation marks drift only with reasons. */
  ghost predicate MarksHaveReasons(step: Step) {
    step.Reconcile? ==> forall app <- step.drift :: step.drift[app] != []
  }

  ghost predicate Moves(a: Db, b: Db) {
    LegalMoves(a, b) && (ColumnsMatch(a) ==> ColumnsMatch(b))
  }

  lemma SaveValidationMoves(db: Db, app: Uuid, issues: seq<Issue>, resourceVersion: string, now: int)
    ensures Moves(db, DbAfter(db, SaveValidationOn(db, app, issues, resourceVersion, now)))
  {
  }

  lemma BeginMoves(db: Db, app: Uuid, expected: nat, actor: Uuid, resourceVersion: string, now: int)
    ensures Moves(db, DbAfter(db, BeginApplyingOn(db, app, expected, actor, resourceVersion, now)))
  {
  }

  lemma BeginIdempotentMoves(db: Db, app: Uuid, expected: nat, resourceVersion: string, key: CommandKey,
      command: Command, now: int)
    ensures Moves(db, DbAfter(db, BeginApplyingIdempotentOn(db, app, expected, resourceVersion, key, command, now)))
  {
  }

  lemma FinishMoves(db: Db, p: Proc, now: int)
    requires p.queue != [] && (p.progress.Failing? || p.progress.Accepting?)
    ensures Moves(db, FinishedDb(db, p, now))
  {
  }

  lemma DriftMoves(db: Db, drift: map<Uuid, seq<DriftReason>>, now: int)
    requires forall app <- drift :: drift[app] != []
    ensures Moves(db, MarkDriftOn(db, drift, now))
  {
  }

  /** Every step moves every row legally and keeps its columns in line with its status. */
  lemma StepMoves(s: State, step: Step)
    requires Next(s, step).Some? && MarksHaveReasons(step)
    ensures Moves(s.db, Next(s, step).value.db)
  {
    match step
    case SaveValidation(app, issues, resourceVersion) => SaveValidationMoves(s.db, app, issues, resourceVersion, s.now);
    case ConfirmPlain(a, user, target, expected, resourceVersion) => ConfirmMoves(s, step);
    case ConfirmIdempotent(a, target, expected, resourceVersion, key, command) => ConfirmMoves(s, step);
    case Finish(a) => FinishMoves(s.db, ProcOf(s, a), s.now);
    case Reconcile(drift) => DriftMoves(s.db, drift, s.now);
    case _ => StayingMoves(s.db);
  }

  lemma StayingMoves(db: Db)
    ensures Moves(db, db)
  {
  }

  lemma ConfirmMoves(s: State, step: Step)
    requires Next(s, step).Some? && (step.ConfirmPlain? || step.ConfirmIdempotent?)
    ensures Moves(s.db, Next(s, step).value.db)
  {
    StayingMoves(s.db);
    match step
    case ConfirmPlain(a, user, target, expected, resourceVersion) =>
      BeginMoves(s.db, target.applicationId, expected, user, resourceVersion, s.now);
    case ConfirmIdempotent(a, target, expected, resourceVersion, key, command) =>
      BeginIdempotentMoves(s.db, target.applicationId, expected, resourceVersion, key, command, s.now);
  }

  /** One step of a run. */
  lemma RunStepMoves(r: Run, i: nat)
    requires Valid(r) && i < |r.steps| && MarksHaveReasons(r.steps[i])
    ensures Moves(r.states[i].db, r.states[i + 1].db)
  {
    assert Next(r.states[i], r.steps[i]) == Some(r.states[i + 1]);
    StepMoves(r.states[i], r.steps[i]);
  }

  ghost predicate MovesAt(states: seq<State>, i: nat)
    requires i + 1 < |states|
  {
    Moves(states[i].db, states[i + 1].db)
  }

  lemma {:induction false} ChainMatches(states: seq<State>, i: nat)
    requires i < |states| && ColumnsMatch(states[0].db) && forall k: nat | k < i :: MovesAt(states, k)
    ensures ColumnsMatch(states[i].db)
  {
    if i > 0 {
      ChainMatches(states, i - 1);
      assert MovesAt(states, i - 1);
    }
  }

  /** In every state of every run each row's columns match its status. */
  lemma ColumnsMatchOverRun(r: Run, i: nat)
    requires Valid(r) && i < |r.states| && forall step <- r.steps :: MarksHaveReasons(step)
    ensures ColumnsMatch(r.states[i].db)
  {
    forall k: nat | k < i
      ensures MovesAt(r.states, k)
    {
      RunStepMoves(r, k);
    }
    ChainMatches(r.states, i);
  }

  lemma DriftStep(s: State, drift: map<Uuid, seq<DriftReason>>)
    ensures Next(s, Reconcile(drift)) == Some(s.(now := s.now + 1, db := MarkDriftOn(s.db, drift, s.now)))
  {
  }

  lemma MarksOfAReconciliation(t: Reconciliation.Tables)
    ensures MarksHaveReasons(Reconcile(Reconciliation.DriftMarks(t)))
  {
  }

  /** A committed reconciliation is a drift step of the protocol, and it marks drift only with reasons. */
  lemma ReconciliationIsAStep(s: State, t: Reconciliation.Tables, c: Reconciliation.Cycle)
    requires Reconciliation.Unambiguous(t.catalog) && t.db == s.db && c.observedAt == s.now
    ensures var step := Reconcile(Reconciliation.DriftMarks(Reconciliation.ObservedOn(t, c)));
            && MarksHaveReasons(step)
            && Next(s, step) == Some(s.(now := s.now + 1, db := Reconciliation.ReconcileOn(t, c).db))
  {
    var observed := Reconciliation.ObservedOn(t, c);
    MarksOfAReconciliation(observed);
    DriftStep(s, Reconciliation.DriftMarks(observed));
    assert Reconciliation.ReconcileOn(t, c).db == MarkDriftOn(t.db, Reconciliation.DriftMarks(observed), c.observedAt);
  }

  /** The step confirms this application for this user. */
  ghost predicate Confirms(step: Step, app: Uuid, user: Uuid) {
    || (step.ConfirmPlain? && step.target.applicationId == app && step.user == user)
    || (step.ConfirmIdempotent? && step.target.applicationId == app && step.key.actorId == user)
  }

  /** A row's confirmation columns are those it had, or those of the confirmation that is this step. */
  ghost predicate ConfirmationFrom(s: State, step: Step, n: State, app: Uuid)
    requires app in n.db.rows && n.db.rows[app].confirmedBy.Some?
  {
    var row := n.db.rows[app];
    || (app in s.db.rows && s.db.rows[app].confirmedBy == row.confirmedBy
        && s.db.rows[app].confirmedAt == row.confirmedAt)
    || (Confirms(step, app, row.confirmedBy.value) && row.confirmedAt == Some(s.now))
  }

  lemma StepAttributes(s: State, step: Step, app: Uuid)
    requires Next(s, step).Some? && app in Next(s, step).value.db.rows
             && Next(s, step).value.db.rows[app].confirmedBy.Some?
    ensures ConfirmationFrom(s, step, Next(s, step).value, app)
  {
  }

  ghost predicate AttributedTo(r: Run, k: nat, i: nat, app: Uuid)
    requires k < |r.steps| && i < |r.states|
  {
    && app in r.states[i].db.rows && r.states[i].db.rows[app].confirmedBy.Some?
    && Confirms(r.steps[k], app, r.states[i].db.rows[app].confirmedBy.value)
    && r.states[i].db.rows[app].confirmedAt == Some(k)
  }

  /** Whoever a row says confirmed it did so, in the step and at the time it says. */
  lemma {:induction false} ConfirmationIsAttributed(r: Run, i: nat, app: Uuid)
    requires Valid(r) && i < |r.states| && app in r.states[i].db.rows && r.states[i].db.rows[app].confirmedBy.Some?
    ensures exists k: nat :: k < i && AttributedTo(r, k, i, app)
  {
    if i > 0 {
      assert Next(r.states[i - 1], r.steps[i - 1]) == Some(r.states[i]);
      StepAttributes(r.states[i - 1], r.steps[i - 1], app);
      StateInv(r, i - 1);
      if Confirms(r.steps[i - 1], app, r.states[i].db.rows[app].confirmedBy.value)
          && r.states[i].db.rows[app].confirmedAt == Some(i - 1) {
        assert AttributedTo(r, i - 1, i, app);
      } else {
        ConfirmationIsAttributed(r, i - 1, app);
        var k: nat :| k < i - 1 && AttributedTo(r, k, i - 1, app);
        assert AttributedTo(r, k, i, app);
      }
    }
  }
}
