/**
 The onboarding protocol as a concurrent system. API requests, the recovery worker, the reconciler and
 crashes interleave at the grain of one database transaction or one Argo CD call; Argo CD may answer
 anything at any time.
 */
module OnboardingRuns {
  import opened Basics
  import opened ArgoDomain
  import opened OnboardingRepository

  type Actor = nat

  /** One Applying row an actor has taken on: the version it holds and the moment it read the row. */
  datatype Ticket = Ticket(target: Target, version: nat, loadedAt: nat)

  /** Progress on the first ticket of an actor's queue. */
  datatype Progress =
    | Starting
    | MustDisable
    | MustReadBack
    | Failing(code: string)
    | Accepting(readAt: nat, readback: Application)

  datatype Proc = Proc(queue: seq<Ticket>, progress: Progress)

  const IDLE := Proc([], Starting)

  datatype State = State(now: nat, db: Db, procs: map<Actor, Proc>)

  datatype Step =
    | SaveValidation(app: Uuid, issues: seq<Issue>, resourceVersion: string)
    | ConfirmPlain(actor: Actor, user: Uuid, target: Target, expected: nat, resourceVersion: string)
    | ConfirmIdempotent(actor: Actor, target: Target, expected: nat, resourceVersion: string, key: CommandKey,
        command: Command)
    | LoadApplying(actor: Actor, targets: seq<Target>)
    | Observe(actor: Actor, answer: Option<Application>)
    | Disable(actor: Actor, succeeds: bool)
    | ReadBack(actor: Actor, answer: Option<Application>)
    | Finish(actor: Actor)
    | Crash(actor: Actor)
    | Reconcile(drift: map<Uuid, seq<DriftReason>>)

  function ProcOf(s: State, a: Actor): Proc {
    if a in s.procs then s.procs[a] else IDLE
  }

  // ---------------------------------------------------------------------------------------------
  // finishApplying, one decision at a time
  // ---------------------------------------------------------------------------------------------

  /** After the fresh read before the mutation. */
  function AfterObservation(t: Target, answer: Option<Application>): Progress {
    if answer.None? || Issues(t, answer.value) != [] then Failing("pre_mutation_validation_failed")
    else if answer.value.automatedSync then MustDisable
    else MustReadBack
  }

  function AfterDisable(succeeds: bool): Progress {
    if succeeds then MustReadBack else Failing("automated_sync_disable_failed")
  }

  /** After the readback; it must show no issue and automated sync off. */
  function AfterReadBack(t: Target, answer: Option<Application>, at: nat): Progress {
    if answer.None? then Failing("readback_failed")
    else if CleanReadback(t, answer.value) then Accepting(at, answer.value)
    else Failing("readback_validation_failed")
  }

  function Tickets(db: Db, targets: seq<Target>, at: nat): seq<Ticket>
    requires forall t <- targets :: t.applicationId in db.rows
  {
    seq(|targets|, i requires 0 <= i < |targets| => Ticket(targets[i], db.rows[targets[i].applicationId].version, at))
  }

  /** The rows listed for recovery are exactly the Applying ones. */
  ghost predicate ListsApplying(db: Db, targets: seq<Target>) {
    && (forall t <- targets :: t.applicationId in db.rows && db.rows[t.applicationId].status == Applying)
    && (forall app <- db.rows :: db.rows[app].status == Applying ==> exists t :: t in targets && t.applicationId == app)
  }

  function WithProc(s: State, a: Actor, p: Proc): State {
    s.(now := s.now + 1, procs := s.procs[a := p])
  }

  function WithDb(s: State, db: Db): State {
    s.(now := s.now + 1, db := db)
  }

  function WithBoth(s: State, db: Db, a: Actor, p: Proc): State {
    State(s.now + 1, db, s.procs[a := p])
  }

  /** The effect of one step, or None where the step cannot happen. */
  ghost function Next(s: State, step: Step): Option<State> {
    match step
    case SaveValidation(app, issues, resourceVersion) =>
      Some(WithDb(s, DbAfter(s.db, SaveValidationOn(s.db, app, issues, resourceVersion, s.now))))
    case ConfirmPlain(a, user, target, expected, resourceVersion) =>
      if ProcOf(s, a).queue != [] then None
      else
        var r := BeginApplyingOn(s.db, target.applicationId, expected, user, resourceVersion, s.now);
        if r.Err? then Some(WithDb(s, s.db))
        else Some(WithBoth(s, r.value.db, a, Proc([Ticket(target, r.value.value.version, s.now + 1)], Starting)))
    case ConfirmIdempotent(a, target, expected, resourceVersion, key, command) =>
      if ProcOf(s, a).queue != [] || !FreshConfirm(target.applicationId, key, command) then None
      else
        var r := BeginApplyingIdempotentOn(s.db, target.applicationId, expected, resourceVersion, key, command, s.now);
        if r.Err? || r.value.value.Replayed? then Some(WithDb(s, s.db))
        else
          var ticket := Ticket(target, r.value.value.onboarding.version, s.now + 1);
          Some(WithBoth(s, r.value.db, a, Proc([ticket], Starting)))
    case LoadApplying(a, targets) =>
      if ProcOf(s, a).queue != [] || !ListsApplying(s.db, targets) then None
      else Some(WithProc(s, a, Proc(Tickets(s.db, targets, s.now), Starting)))
    case Observe(a, answer) =>
      var p := ProcOf(s, a);
      if p.queue == [] || !p.progress.Starting? then None
      else Some(WithProc(s, a, p.(progress := AfterObservation(p.queue[0].target, answer))))
    case Disable(a, succeeds) =>
      var p := ProcOf(s, a);
      if p.queue == [] || !p.progress.MustDisable? then None
      else Some(WithProc(s, a, p.(progress := AfterDisable(succeeds))))
    case ReadBack(a, answer) =>
      var p := ProcOf(s, a);
      if p.queue == [] || !p.progress.MustReadBack? then None
      else Some(WithProc(s, a, p.(progress := AfterReadBack(p.queue[0].target, answer, s.now))))
    case Finish(a) =>
      var p := ProcOf(s, a);
      if p.queue == [] || !(p.progress.Failing? || p.progress.Accepting?) then None
      else Some(WithBoth(s, FinishedDb(s.db, p, s.now), a, Proc(p.queue[1..], Starting)))
    case Crash(a) => Some(WithProc(s, a, IDLE))
    case Reconcile(drift) => Some(WithDb(s, MarkDriftOn(s.db, drift, s.now)))
  }

  /** The closing transaction of finishApplying. */
  function FinishedDb(db: Db, p: Proc, now: int): Db
    requires p.queue != [] && (p.progress.Failing? || p.progress.Accepting?)
  {
    var t := p.queue[0];
    if p.progress.Accepting?
    then DbAfter(db, MarkManagedOn(db, t.target.applicationId, t.version, now))
    else DbAfter(db, RecordOperationErrorOn(db, t.target.applicationId, t.version, p.progress.code))
  }

  // ---------------------------------------------------------------------------------------------
  // Runs
  // ---------------------------------------------------------------------------------------------

  datatype Run = Run(states: seq<State>, steps: seq<Step>)

  ghost predicate Valid(r: Run) {
    && |r.states| == |r.steps| + 1
    && r.states[0].now == 0 && r.states[0].procs == map[] && r.states[0].db.rows == map[]
        && r.states[0].db.commands == map[]
    && (forall i, j | 0 <= i < |r.steps| && j == i + 1 :: Next(r.states[i], r.steps[i]) == Some(r.states[j]))
  }

  lemma StepKeepsDb(s: State, step: Step)
    requires CommandInv(s.db) && Next(s, step).Some?
    ensures var n := Next(s, step).value;
            && n.now == s.now + 1
            && CommandInv(n.db) && RowsAdvance(s.db, n.db) && CommandsAdvance(s.db, n.db)
  {
    match step
    case SaveValidation(app, issues, resourceVersion) => SaveValidationKeeps(s.db, app, issues, resourceVersion, s.now);
    case ConfirmPlain(a, user, target, expected, resourceVersion) =>
      BeginKeeps(s.db, target.applicationId, expected, user, resourceVersion, s.now);
    case ConfirmIdempotent(a, target, expected, resourceVersion, key, command) =>
      BeginIdempotentKeeps(s.db, target.applicationId, expected, resourceVersion, key, command, s.now);
    case Finish(a) =>
      var p := ProcOf(s, a);
      var t := p.queue[0];
      MarkManagedKeeps(s.db, t.target.applicationId, t.version, s.now);
      if p.progress.Failing? {
        RecordErrorKeeps(s.db, t.target.applicationId, t.version, p.progress.code);
      }
    case Reconcile(drift) => MarkDriftKeeps(s.db, drift, s.now);
    case _ =>
  }

  lemma {:induction false} StateInv(r: Run, i: nat)
    requires Valid(r) && i < |r.states|
    ensures r.states[i].now == i && CommandInv(r.states[i].db)
  {
    if i > 0 {
      StateInv(r, i - 1);
      assert Next(r.states[i - 1], r.steps[i - 1]) == Some(r.states[i]);
      StepKeepsDb(r.states[i - 1], r.steps[i - 1]);
    }
  }

  ghost predicate Advances(a: Db, b: Db) {
    RowsAdvance(a, b) && CommandsAdvance(a, b)
  }

  lemma AdvancesTransitive(a: Db, b: Db, c: Db)
    requires Advances(a, b) && Advances(b, c)
    ensures Advances(a, c)
  {
  }

  lemma RunStepAdvances(r: Run, i: nat)
    requires Valid(r) && i < |r.steps|
    ensures Advances(r.states[i].db, r.states[i + 1].db)
  {
    StateInv(r, i);
    assert Next(r.states[i], r.steps[i]) == Some(r.states[i + 1]);
    StepKeepsDb(r.states[i], r.steps[i]);
  }

  ghost predicate AdvancesAt(states: seq<State>, k: nat)
    requires k + 1 < |states|
  {
    Advances(states[k].db, states[k + 1].db)
  }

  lemma {:induction false} ChainAdvances(states: seq<State>, i: nat, j: nat)
    requires i <= j < |states| && forall k: nat | i <= k < j :: AdvancesAt(states, k)
    ensures Advances(states[i].db, states[j].db)
    decreases j - i
  {
    if i < j {
      ChainAdvances(states, i, j - 1);
      assert AdvancesAt(states, j - 1);
      AdvancesTransitive(states[i].db, states[j - 1].db, states[j].db);
    }
  }

  /** Along a run, versions never go back, and an unchanged version means an unchanged row. */
  lemma RowsAdvanceOverRun(r: Run, i: nat, j: nat)
    requires Valid(r) && i <= j < |r.states|
    ensures Advances(r.states[i].db, r.states[j].db)
  {
    forall k: nat | i <= k < j
      ensures AdvancesAt(r.states, k)
    {
      RunStepAdvances(r, k);
    }
    ChainAdvances(r.states, i, j);
  }

  /** A row whose version is the same at both ends of an interval is the same row throughout it. */
  lemma RowFrozen(r: Run, i: nat, m: nat, j: nat, app: Uuid)
    requires Valid(r) && i <= m <= j < |r.states|
    requires app in r.states[i].db.rows && app in r.states[j].db.rows
    requires r.states[j].db.rows[app].version <= r.states[i].db.rows[app].version
    ensures app in r.states[m].db.rows && r.states[m].db.rows[app] == r.states[i].db.rows[app]
  {
    RowsAdvanceOverRun(r, i, m);
    RowsAdvanceOverRun(r, m, j);
  }

  /** Where a ticket comes from: at some earlier moment of the run its row was Applying at the ticket's version. */
  ghost predicate TicketGrounded(r: Run, i: nat, t: Ticket)
    requires i < |r.states|
  {
    && t.loadedAt <= i
    && t.target.applicationId in r.states[t.loadedAt].db.rows
    && r.states[t.loadedAt].db.rows[t.target.applicationId].status == Applying
    && r.states[t.loadedAt].db.rows[t.target.applicationId].version == t.version
  }

  /** An actor about to accept read back a clean observation at a recorded step after it took the ticket on. */
  ghost predicate AcceptanceGrounded(r: Run, i: nat, a: Actor, p: Proc)
    requires i < |r.states|
  {
    p.progress.Accepting? ==>
      && p.queue != []
      && p.queue[0].loadedAt <= p.progress.readAt < i && i <= |r.steps|
      && r.steps[p.progress.readAt] == ReadBack(a, Some(p.progress.readback))
      && ProcOf(r.states[p.progress.readAt], a).queue == p.queue
      && CleanReadback(p.queue[0].target, p.progress.readback)
  }

  ghost predicate ProcGrounded(r: Run, i: nat, a: Actor)
    requires i < |r.states|
  {
    var p := ProcOf(r.states[i], a);
    && (forall t <- p.queue :: TicketGrounded(r, i, t))
    && AcceptanceGrounded(r, i, a, p)
  }

  lemma {:induction false} ProcsAreGrounded(r: Run, i: nat, a: Actor)
    requires Valid(r) && i < |r.states|
    ensures ProcGrounded(r, i, a)
  {
    if i > 0 {
      ProcsAreGrounded(r, i - 1, a);
      StateInv(r, i - 1);
      StateInv(r, i);
      assert Next(r.states[i - 1], r.steps[i - 1]) == Some(r.states[i]);
      TicketsAfterStep(r.states[i - 1], r.steps[i - 1], a);
      AcceptanceAfterStep(r.states[i - 1], r.steps[i - 1], a);
      StepGroundsProc(r, i, a);
    }
  }

  /** The row a ticket names is Applying at the ticket's version in this state, which is the ticket's moment. */
  predicate JustLoaded(s: State, t: Ticket) {
    t.loadedAt == s.now && At(s.db, t.target.applicationId, Applying, t.version)
  }

  ghost predicate TicketsComeFrom(s: State, n: State, a: Actor) {
    forall t <- ProcOf(n, a).queue :: t in ProcOf(s, a).queue || JustLoaded(s, t) || JustLoaded(n, t)
  }

  lemma TicketsAfterStep(s: State, step: Step, a: Actor)
    requires Next(s, step).Some?
    ensures TicketsComeFrom(s, Next(s, step).value, a)
  {
    if step.LoadApplying? && step.actor == a {
      var tickets := Tickets(s.db, step.targets, s.now);
      forall t | t in tickets
        ensures JustLoaded(s, t)
      {
        var m :| 0 <= m < |tickets| && tickets[m] == t;
        assert step.targets[m] in step.targets;
      }
    }
  }

  /** A process that newly accepts has just read back a clean observation for its first ticket. */
  ghost predicate AcceptanceComesFrom(s: State, step: Step, n: State, a: Actor) {
    var before, p := ProcOf(s, a), ProcOf(n, a);
    p.progress.Accepting? && p != before ==>
      && p.queue != [] && p.queue == before.queue
      && step == ReadBack(a, Some(p.progress.readback)) && p.progress.readAt == s.now
      && CleanReadback(p.queue[0].target, p.progress.readback)
  }

  lemma AcceptanceAfterStep(s: State, step: Step, a: Actor)
    requires Next(s, step).Some?
    ensures AcceptanceComesFrom(s, step, Next(s, step).value, a)
  {
  }

  lemma StepGroundsProc(r: Run, i: nat, a: Actor)
    requires 0 < i < |r.states| == |r.steps| + 1 && r.states[i - 1].now == i - 1 && r.states[i].now == i
    requires ProcGrounded(r, i - 1, a)
    requires TicketsComeFrom(r.states[i - 1], r.states[i], a)
    requires AcceptanceComesFrom(r.states[i - 1], r.steps[i - 1], r.states[i], a)
    ensures ProcGrounded(r, i, a)
  {
    var before, p := ProcOf(r.states[i - 1], a), ProcOf(r.states[i], a);
    forall t | t in p.queue
      ensures TicketGrounded(r, i, t)
    {
      assert t in before.queue ==> TicketGrounded(r, i - 1, t);
    }
    if p.progress.Accepting? && p != before {
      var t := p.queue[0];
      assert t in before.queue && TicketGrounded(r, i - 1, t);
    }
  }

  // ---------------------------------------------------------------------------------------------
  // Safety
  // ---------------------------------------------------------------------------------------------

  predicate BecomesManaged(s: State, n: State, app: Uuid) {
    && app in n.db.rows && n.db.rows[app].status == Managed
    && !(app in s.db.rows && s.db.rows[app].status == Managed)
  }

  /** Only a closing transaction that accepts makes a row Managed, at the version its actor holds. */
  lemma OnlyFinishManages(s: State, step: Step, app: Uuid)
    requires Next(s, step).Some? && BecomesManaged(s, Next(s, step).value, app)
    ensures step.Finish? && ProcOf(s, step.actor).queue != [] && ProcOf(s, step.actor).progress.Accepting?
    ensures ProcOf(s, step.actor).queue[0].target.applicationId == app
    ensures At(s.db, app, Applying, ProcOf(s, step.actor).queue[0].version)
  {
  }

  /** At step k this actor read back, for the target it is finishing, an observation with no issue and sync off. */
  ghost predicate CleanReadbackAt(r: Run, k: nat, a: Actor, app: Uuid)
    requires k < |r.steps| && k < |r.states|
  {
    && r.steps[k].ReadBack? && r.steps[k].actor == a && r.steps[k].answer.Some?
    && ProcOf(r.states[k], a).queue != []
    && ProcOf(r.states[k], a).queue[0].target.applicationId == app
    && CleanReadback(ProcOf(r.states[k], a).queue[0].target, r.steps[k].answer.value)
  }

  /** From moment j to moment i the row stays in Applying, at one version. */
  ghost predicate OneEpisode(r: Run, j: nat, i: nat, app: Uuid)
    requires j <= i < |r.states|
  {
    && app in r.states[i].db.rows
    && forall m | j <= m <= i ::
         && app in r.states[m].db.rows
         && r.states[m].db.rows[app].status == Applying
         && r.states[m].db.rows[app].version == r.states[i].db.rows[app].version
  }

  /**
   Main theorem. In every interleaving, a row becomes Managed only by an actor that took a readback with no
   issue and automated sync off inside the very Applying episode that ends there: from before the readback
   to the finish the row never left Applying.
   */
  lemma ManagedOnlyAfterReadbackInSameEpisode(r: Run, i: nat, app: Uuid)
    requires Valid(r) && i < |r.steps| && BecomesManaged(r.states[i], r.states[i + 1], app)
    ensures r.steps[i].Finish?
    ensures exists k: nat | k < i :: OneEpisode(r, k, i, app) && CleanReadbackAt(r, k, r.steps[i].actor, app)
  {
    var s := r.states[i];
    assert Next(s, r.steps[i]) == Some(r.states[i + 1]);
    OnlyFinishManages(s, r.steps[i], app);
    var a := r.steps[i].actor;
    ProcsAreGrounded(r, i, a);
    var p := ProcOf(s, a);
    var t := p.queue[0];
    assert TicketGrounded(r, i, t);
    var k := p.progress.readAt;
    forall m | k <= m <= i
      ensures app in r.states[m].db.rows && r.states[m].db.rows[app].status == Applying
              && r.states[m].db.rows[app].version == s.db.rows[app].version
    {
      RowFrozen(r, t.loadedAt, m, i, app);
    }
    assert CleanReadbackAt(r, k, a, app);
    assert OneEpisode(r, k, i, app);
  }

  /** An actor whose row left Applying after it was loaded can never finish it, in whatever state the row is now. */
  lemma StaleTicketNeverFinishes(r: Run, m: nat, i: nat, a: Actor)
    requires Valid(r) && i < |r.steps| && r.steps[i] == Finish(a) && ProcOf(r.states[i], a).queue != []
    requires ProcOf(r.states[i], a).queue[0].loadedAt <= m <= i
    requires var app := ProcOf(r.states[i], a).queue[0].target.applicationId;
             app in r.states[m].db.rows && r.states[m].db.rows[app].status != Applying
    ensures r.states[i + 1].db == r.states[i].db
  {
    var s := r.states[i];
    assert Next(s, r.steps[i]) == Some(r.states[i + 1]);
    ProcsAreGrounded(r, i, a);
    var t := ProcOf(s, a).queue[0];
    assert TicketGrounded(r, i, t);
    var app := t.target.applicationId;
    RowsAdvanceOverRun(r, t.loadedAt, m);
    RowsAdvanceOverRun(r, m, i);
    assert r.states[m].db.rows[app] != r.states[t.loadedAt].db.rows[app];
    assert !At(s.db, app, Applying, t.version);
  }

  // ---------------------------------------------------------------------------------------------
  // Exactly-once confirmation
  // ---------------------------------------------------------------------------------------------

  /** Step i reserves this key and takes its application into Applying. */
  ghost predicate EntersWithKey(r: Run, i: nat, key: CommandKey)
    requires Valid(r) && i < |r.steps|
  {
    r.steps[i].ConfirmIdempotent? && r.steps[i].key == key && r.states[i + 1].db != r.states[i].db
  }

  /** For each actor and idempotency key at most one confirmation of a run ever enters Applying. */
  lemma AtMostOneEntryPerKey(r: Run, i: nat, j: nat, key: CommandKey)
    requires Valid(r) && i < j < |r.steps| && EntersWithKey(r, i, key)
    ensures !EntersWithKey(r, j, key)
  {
    assert Next(r.states[i], r.steps[i]) == Some(r.states[i + 1]);
    assert Next(r.states[j], r.steps[j]) == Some(r.states[j + 1]);
    assert key in r.states[i + 1].db.commands;
    RowsAdvanceOverRun(r, i + 1, j);
    assert key in r.states[j].db.commands;
  }

  /** At every moment an accepted confirm command's application is Applying, and no other command of it is accepted. */
  lemma AcceptedMeansApplying(r: Run, i: nat, k: CommandKey, other: CommandKey)
    requires Valid(r) && i < |r.states| && k in r.states[i].db.commands && r.states[i].db.commands[k].state == Accepted
    requires other in r.states[i].db.commands && r.states[i].db.commands[other].state == Accepted
    requires r.states[i].db.commands[other].applicationId == r.states[i].db.commands[k].applicationId
    ensures other == k
    ensures var app := r.states[i].db.commands[k].applicationId;
            app in r.states[i].db.rows && r.states[i].db.rows[app].status == Applying
  {
    StateInv(r, i);
  }

  /** The run reached Managed for this application at this version. */
  ghost predicate ReachedManaged(r: Run, i: nat, app: Uuid, version: nat)
    requires i < |r.states|
  {
    exists n :: 0 < n <= i && app in r.states[n].db.rows && BecomesManaged(r.states[n - 1], r.states[n], app)
                && r.states[n].db.rows[app].version == version
  }

  /** What a completed command records. */
  ghost predicate RecordsManaged(r: Run, i: nat, c: Command)
    requires i < |r.states|
  {
    c.onboardingStatus == Some(Managed) && c.onboardingVersion.Some?
    && ReachedManaged(r, i, c.applicationId, c.onboardingVersion.value)
  }

  lemma RecordsManagedLater(r: Run, i: nat, j: nat, c: Command)
    requires i <= j < |r.states| && RecordsManaged(r, i, c)
    ensures RecordsManaged(r, j, c)
  {
    var n :| 0 < n <= i && c.applicationId in r.states[n].db.rows
        && BecomesManaged(r.states[n - 1], r.states[n], c.applicationId)
             && r.states[n].db.rows[c.applicationId].version == c.onboardingVersion.value;
    assert n <= j;
  }

  lemma {:induction false} CompletedRecordsManagedVersion(r: Run, i: nat, k: CommandKey)
    requires Valid(r) && i < |r.states| && k in r.states[i].db.commands && r.states[i].db.commands[k].state == Completed
    ensures RecordsManaged(r, i, r.states[i].db.commands[k])
  {
    if i > 0 {
      var s, n := r.states[i - 1], r.states[i];
      StateInv(r, i - 1);
      StateInv(r, i);
      if k in s.db.commands && s.db.commands[k].state == Completed {
        RunStepAdvances(r, i - 1);
        CompletedRecordsManagedVersion(r, i - 1, k);
        RecordsManagedLater(r, i - 1, i, n.db.commands[k]);
      } else {
        NewlyCompletedRecordsVersion(r, i, k);
      }
    }
  }

  lemma NewlyCompletedRecordsVersion(r: Run, i: nat, k: CommandKey)
    requires Valid(r) && 0 < i < |r.states| && k in r.states[i].db.commands
    requires r.states[i].db.commands[k].state == Completed && CommandInv(r.states[i - 1].db)
             && CommandInv(r.states[i].db)
    requires !(k in r.states[i - 1].db.commands && r.states[i - 1].db.commands[k].state == Completed)
    ensures RecordsManaged(r, i, r.states[i].db.commands[k])
  {
    assert Next(r.states[i - 1], r.steps[i - 1]) == Some(r.states[i]);
    CompletionComesFromFinish(r.states[i - 1], r.steps[i - 1], k);
  }

  /** A step that completes a command makes its application Managed at the recorded version. */
  lemma CompletionComesFromFinish(s: State, step: Step, k: CommandKey)
    requires CommandInv(s.db) && Next(s, step).Some? && k in Next(s, step).value.db.commands
    requires Next(s, step).value.db.commands[k].state == Completed
    requires !(k in s.db.commands && s.db.commands[k].state == Completed)
    ensures var n := Next(s, step).value;
            var c := n.db.commands[k];
            && c.applicationId in n.db.rows && BecomesManaged(s, n, c.applicationId)
            && c.onboardingVersion == Some(n.db.rows[c.applicationId].version)
  {
    var n := Next(s, step).value;
    assert n.db.commands != s.db.commands;
    assert !step.ConfirmIdempotent?;
    var t := ProcOf(s, step.actor).queue[0];
    assert n.db == DbAfter(s.db, MarkManagedOn(s.db, t.target.applicationId, t.version, s.now));
  }

  /**
   Once a command is Completed, every later replay of the same payload reads that same record: Managed, at the
   version at which the run reached Managed.
   */
  lemma ReplayReturnsManagedVersion(r: Run, i: nat, j: nat, k: CommandKey, command: Command, expected: nat,
      resourceVersion: string, now: int)
    requires Valid(r) && i <= j < |r.states| && k in r.states[i].db.commands
             && r.states[i].db.commands[k].state == Completed
    requires command.fingerprint == r.states[i].db.commands[k].fingerprint
    requires command.applicationId == r.states[i].db.commands[k].applicationId
    ensures var c := r.states[i].db.commands[k];
            && BeginApplyingIdempotentOn(
                 r.states[j].db, command.applicationId, expected, resourceVersion, k, command, now)
               == Ok(Committed(r.states[j].db, Replayed(c)))
            && RecordsManaged(r, i, c)
  {
    RowsAdvanceOverRun(r, i, j);
    CompletedRecordsManagedVersion(r, i, k);
  }
}
