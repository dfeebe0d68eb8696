/** Any number of requests, reloads and commits over one policy engine, interleaved at the grain of single reads. */
module PolicyRuns {
  import opened Basics
  import opened Scopes
  import opened PolicyTables
  import opened PolicyDecision
  import opened PolicyEngine

  type Thread = nat

  /** One committed state of the database. */
  datatype Commit = Commit(tables: Tables, revision: nat)

  /** Where a caller stands. `start` is the moment its call began; `decides` tells a decision from a bare reload. */
  datatype Phase =
    | Idle
    | Checking(start: nat, decides: bool)
    | Comparing(start: nat, decides: bool, current: nat)
    | Waiting(start: nat, decides: bool)
    | Loaded(start: nat, decides: bool)
    | Deciding(start: nat)

  /** One evaluated request: the moments its call began and its policy was read, the tag, and the race of that load. */
  datatype Decision = Decision(start: nat, readAt: nat, tag: nat, racedAt: Option<nat>)

  /**
   `log` holds every committed state; a moment is an index into it. The cached rules are those of moment `readAt`.
   `missed` is the revision of the first commit that raised the revision since then. `racedAt` is that revision as it
   was when the load that read the cached rules went on to read its tag, and nothing if it did not get that far.
   */
  datatype State = State(
    log: seq<Commit>, readAt: nat, tag: nat, missed: Option<nat>, racedAt: Option<nat>,
    holder: Option<Thread>, phases: map<Thread, Phase>, decisions: seq<Decision>)

  datatype Label =
    | CommitChange(change: Change)
    | CallFresh(thread: Thread)
    | CallReloadIfStale(thread: Thread)
    | CallReload(thread: Thread)
    | ReadCurrent(thread: Thread)
    | ReadCurrentFails(thread: Thread)
    | Compare(thread: Thread)
    | LoadPolicy(thread: Thread)
    | LoadFails(thread: Thread)
    | ReadRevision(thread: Thread)
    | ReadRevisionFails(thread: Thread)
    | Decide(thread: Thread)

  function PhaseOf(s: State, t: Thread): Phase {
    if t in s.phases then s.phases[t] else Idle
  }

  function Goto(s: State, t: Thread, p: Phase): State {
    s.(phases := s.phases[t := p])
  }

  function AfterReload(start: nat, decides: bool): Phase {
    if decides then Deciding(start) else Idle
  }

  function Now(s: State): nat
    requires s.log != []
  {
    |s.log| - 1
  }

  function RevisionAt(log: seq<Commit>, moment: nat): nat
    requires moment < |log|
  {
    log[moment].revision
  }

  function Committed(s: State): Commit
    requires s.log != []
  {
    s.log[|s.log| - 1]
  }

  /** A commit; it is remembered as missed if it is the first to raise the revision since the policy was read. */
  function AfterCommit(s: State, change: Change): State
    requires s.log != []
  {
    var revision := Committed(s).revision + change.statements;
    s.(log := s.log + [Commit(change.tables, revision)],
       missed := if s.missed.None? && change.statements > 0 then Some(revision) else s.missed)
  }

  /** The effect of one atomic step, or None where it is not possible. Readers and the loader exclude each other. */
  ghost function Next(s: State, l: Label): Option<State>
    requires s.log != []
  {
    match l
    case CommitChange(change) => if Possible(Committed(s).tables, change) then Some(AfterCommit(s, change)) else None
    case CallFresh(t) => if PhaseOf(s, t) == Idle then Some(Goto(s, t, Checking(Now(s), true))) else None
    case CallReloadIfStale(t) => if PhaseOf(s, t) == Idle then Some(Goto(s, t, Checking(Now(s), false))) else None
    case CallReload(t) => if PhaseOf(s, t) == Idle then Some(Goto(s, t, Waiting(Now(s), false))) else None
    case ReadCurrent(t) =>
      (match PhaseOf(s, t)
       case Checking(start, decides) => Some(Goto(s, t, Comparing(start, decides, Committed(s).revision)))
       case _ => None)
    case ReadCurrentFails(t) => if PhaseOf(s, t).Checking? then Some(Goto(s, t, Idle)) else None
    case Compare(t) =>
      (match PhaseOf(s, t)
       case Comparing(start, decides, current) =>
         if s.holder.Some? then None
         else if current <= s.tag then Some(Goto(s, t, AfterReload(start, decides)))
         else Some(Goto(s, t, Waiting(start, decides)))
       case _ => None)
    case LoadPolicy(t) =>
      (match PhaseOf(s, t)
       case Waiting(start, decides) =>
         if s.holder.Some? then None
         else Some(Goto(s.(readAt := Now(s), missed := None, holder := Some(t)), t, Loaded(start, decides)))
       case _ => None)
    case LoadFails(t) =>
      if PhaseOf(s, t).Waiting? && s.holder.None? then Some(Goto(s, t, Idle)) else None
    case ReadRevision(t) =>
      (match PhaseOf(s, t)
       case Loaded(start, decides) =>
         Some(Goto(s.(tag := Committed(s).revision, racedAt := s.missed, holder := None), t,
             AfterReload(start, decides)))
       case _ => None)
    case ReadRevisionFails(t) =>
      if PhaseOf(s, t).Loaded? then Some(Goto(s.(racedAt := None, holder := None), t, Idle)) else None
    case Decide(t) =>
      (match PhaseOf(s, t)
       case Deciding(start) =>
         if s.holder.Some? then None
         else Some(Goto(s.(decisions := s.decisions + [Decision(start, s.readAt, s.tag, s.racedAt)]), t, Idle))
       case _ => None)
  }

  function Initial(tables: Tables, revision: nat): State {
    State([Commit(tables, revision)], 0, revision, None, None, None, map[], [])
  }

  ghost function Run(s: State, labels: seq<Label>): (r: Option<State>)
    requires s.log != []
    ensures r.Some? ==> r.value.log != []
  {
    if labels == [] then Some(s)
    else
      var before := Run(s, labels[..|labels| - 1]);
      if before.None? then None else Next(before.value, labels[|labels| - 1])
  }

  // ---------------------------------------------------------------------------------------------
  // Invariant
  // ---------------------------------------------------------------------------------------------

  /** Revisions never fall, and moments of one revision differ in users only. */
  ghost predicate LogInv(log: seq<Commit>) {
    && log != []
    && forall i: nat, j: nat | i <= j < |log| ::
         && RevisionAt(log, i) <= RevisionAt(log, j)
         && (RevisionAt(log, i) == RevisionAt(log, j) ==> UsersOnly(log[i].tables, log[j].tables))
  }

  /** This is the first revision after that of a moment, up to a bound. */
  ghost predicate IsFirstAfter(log: seq<Commit>, moment: nat, first: Option<nat>, bound: nat)
    requires moment < |log|
  {
    match first
    case None => bound <= RevisionAt(log, moment)
    case Some(v) =>
      && RevisionAt(log, moment) < v <= bound
      && forall i: nat | i < |log| :: RevisionAt(log, i) > RevisionAt(log, moment) ==> RevisionAt(log, i) >= v
  }

  ghost predicate PhaseInv(s: State, p: Phase)
    requires s.log != []
  {
    match p
    case Idle => true
    case Checking(start, _) => start < |s.log|
    case Comparing(start, _, current) => start < |s.log| && RevisionAt(s.log, start) <= current <= Committed(s).revision
    case Waiting(start, _) => start < |s.log|
    case Loaded(start, _) => start < |s.log| && s.readAt < |s.log| && start <= s.readAt
    case Deciding(start) => start < |s.log| && RevisionAt(s.log, start) <= s.tag
  }

  ghost predicate DecisionInv(log: seq<Commit>, d: Decision) {
    && d.start < |log| && d.readAt < |log|
    && RevisionAt(log, d.start) <= d.tag <= RevisionAt(log, |log| - 1)
    && IsFirstAfter(log, d.readAt, d.racedAt, d.tag)
  }

  ghost predicate CacheInv(s: State) {
    && LogInv(s.log) && s.readAt < |s.log| && s.tag <= Committed(s).revision
    && IsFirstAfter(s.log, s.readAt, s.missed, Committed(s).revision)
    && (s.holder.Some? ==> s.tag <= RevisionAt(s.log, s.readAt))
    && (s.holder.None? ==> IsFirstAfter(s.log, s.readAt, s.racedAt, s.tag))
  }

  ghost predicate PhasesInv(s: State)
    requires s.log != []
  {
    && (forall t <- s.phases :: PhaseInv(s, s.phases[t]))
    && (forall t <- s.phases :: s.holder == Some(t) <==> s.phases[t].Loaded?)
    && (s.holder.Some? ==> s.holder.value in s.phases)
  }

  ghost predicate Inv(s: State) {
    && CacheInv(s) && PhasesInv(s)
    && forall d <- s.decisions :: DecisionInv(s.log, d)
  }

  lemma FirstAfterStays(log: seq<Commit>, c: Commit, moment: nat, first: Option<nat>, bound: nat)
    requires LogInv(log) && moment < |log| && IsFirstAfter(log, moment, first, bound)
    requires bound <= RevisionAt(log, |log| - 1) <= c.revision
    ensures IsFirstAfter(log + [c], moment, first, bound)
  {
    var more := log + [c];
    forall i: nat | i < |more|
      ensures RevisionAt(more, i) == if i < |log| then RevisionAt(log, i) else c.revision
    {
    }
  }

  lemma LogExtends(log: seq<Commit>, c: Commit)
    requires LogInv(log) && log[|log| - 1].revision <= c.revision
    requires log[|log| - 1].revision == c.revision ==> UsersOnly(log[|log| - 1].tables, c.tables)
    ensures LogInv(log + [c])
  {
    var more := log + [c];
    forall i: nat, j: nat | i <= j < |more|
      ensures RevisionAt(more, i) <= RevisionAt(more, j)
      ensures RevisionAt(more, i) == RevisionAt(more, j) ==> UsersOnly(more[i].tables, more[j].tables)
    {
      if j == |log| {
        if i == j {
          assert UsersOnly(c.tables, c.tables);
        } else {
          assert RevisionAt(log, i) <= RevisionAt(log, |log| - 1);
          if RevisionAt(more, i) == RevisionAt(more, j) {
            UsersOnlyComposes(log[i].tables, log[|log| - 1].tables, c.tables);
          }
        }
      } else {
        assert RevisionAt(log, i) <= RevisionAt(log, j);
      }
    }
  }

  lemma CommitKeepsInv(s: State, change: Change)
    requires Inv(s) && Possible(Committed(s).tables, change)
    ensures Inv(AfterCommit(s, change))
  {
    var c := Commit(change.tables, Committed(s).revision + change.statements);
    LogExtends(s.log, c);
    CommitKeepsCache(s, change);
    CommitKeepsPhases(s, change);
    DecisionsStay(s, change);
  }

  lemma CommitKeepsPhases(s: State, change: Change)
    requires s.log != [] && PhasesInv(s)
    ensures PhasesInv(AfterCommit(s, change))
  {
    var n := AfterCommit(s, change);
    forall t | t in n.phases
      ensures PhaseInv(n, n.phases[t])
    {
      assert PhaseInv(s, s.phases[t]);
    }
  }

  lemma DecisionsStay(s: State, change: Change)
    requires LogInv(s.log) && forall d <- s.decisions :: DecisionInv(s.log, d)
    ensures forall d <- AfterCommit(s, change).decisions :: DecisionInv(AfterCommit(s, change).log, d)
  {
    forall d | d in s.decisions
      ensures DecisionInv(AfterCommit(s, change).log, d)
    {
      DecisionStays(s.log, Commit(change.tables, Committed(s).revision + change.statements), d);
    }
  }

  lemma DecisionStays(log: seq<Commit>, c: Commit, d: Decision)
    requires LogInv(log) && DecisionInv(log, d) && RevisionAt(log, |log| - 1) <= c.revision
    ensures DecisionInv(log + [c], d)
  {
    FirstAfterStays(log, c, d.readAt, d.racedAt, d.tag);
  }

  lemma CommitKeepsCache(s: State, change: Change)
    requires CacheInv(s) && Possible(Committed(s).tables, change) && LogInv(AfterCommit(s, change).log)
    ensures CacheInv(AfterCommit(s, change))
  {
    var n := AfterCommit(s, change);
    var c := Commit(change.tables, Committed(s).revision + change.statements);
    FirstAfterStays(s.log, c, s.readAt, s.missed, Committed(s).revision);
    if s.holder.None? {
      FirstAfterStays(s.log, c, s.readAt, s.racedAt, s.tag);
    }
    if s.missed.None? {
      assert RevisionAt(s.log, s.readAt) <= RevisionAt(s.log, |s.log| - 1);
      forall i: nat | i < |n.log|
        ensures RevisionAt(n.log, i) > RevisionAt(n.log, n.readAt) ==> RevisionAt(n.log, i) >= c.revision
      {
        assert i < |s.log| ==> RevisionAt(s.log, i) <= RevisionAt(s.log, |s.log| - 1);
      }
    }
  }

  lemma MoveKeepsInv(s: State, t: Thread, p: Phase)
    requires Inv(s) && PhaseInv(s, p) && !p.Loaded? && !PhaseOf(s, t).Loaded?
    ensures Inv(Goto(s, t, p))
  {
    var n := Goto(s, t, p);
    forall u | u in n.phases
      ensures PhaseInv(n, n.phases[u]) && (n.holder == Some(u) <==> n.phases[u].Loaded?)
    {
      assert u != t ==> PhaseInv(s, s.phases[u]);
    }
  }

  lemma LoadKeepsInv(s: State, t: Thread)
    requires Inv(s) && Next(s, LoadPolicy(t)).Some?
    ensures Inv(Next(s, LoadPolicy(t)).value)
  {
    var n := Next(s, LoadPolicy(t)).value;
    assert PhaseInv(s, PhaseOf(s, t));
    forall u | u in n.phases
      ensures PhaseInv(n, n.phases[u]) && (n.holder == Some(u) <==> n.phases[u].Loaded?)
    {
      assert u != t ==> PhaseInv(s, s.phases[u]);
    }
  }

  lemma ReadRevisionKeepsInv(s: State, t: Thread)
    requires Inv(s) && PhaseOf(s, t).Loaded?
    ensures Inv(Next(s, ReadRevision(t)).value)
  {
    var n := Next(s, ReadRevision(t)).value;
    assert PhaseInv(s, PhaseOf(s, t));
    forall u | u in n.phases
      ensures PhaseInv(n, n.phases[u]) && !n.phases[u].Loaded?
    {
      assert u != t ==> PhaseInv(s, s.phases[u]);
      assert u == t ==> RevisionAt(s.log, s.phases[t].start) <= RevisionAt(s.log, |s.log| - 1);
    }
  }

  lemma ReadRevisionFailsKeepsInv(s: State, t: Thread)
    requires Inv(s) && PhaseOf(s, t).Loaded?
    ensures Inv(Next(s, ReadRevisionFails(t)).value)
  {
    var n := Next(s, ReadRevisionFails(t)).value;
    forall u | u in n.phases
      ensures PhaseInv(n, n.phases[u]) && !n.phases[u].Loaded?
    {
      assert u != t ==> PhaseInv(s, s.phases[u]);
    }
  }

  lemma DecideKeepsInv(s: State, t: Thread)
    requires Inv(s) && Next(s, Decide(t)).Some?
    ensures Inv(Next(s, Decide(t)).value)
  {
    var n := Next(s, Decide(t)).value;
    assert PhaseInv(s, PhaseOf(s, t));
    forall u | u in n.phases
      ensures PhaseInv(n, n.phases[u]) && (n.holder == Some(u) <==> n.phases[u].Loaded?)
    {
      assert u != t ==> PhaseInv(s, s.phases[u]);
    }
    forall d | d in n.decisions
      ensures DecisionInv(n.log, d)
    {
      assert d in s.decisions ==> DecisionInv(s.log, d);
    }
  }

  /** The steps that only move their own thread. */
  predicate OnlyMoves(l: Label) {
    || l.CallFresh? || l.CallReloadIfStale? || l.CallReload? || l.ReadCurrent? || l.ReadCurrentFails? || l.Compare?
        || l.LoadFails?
  }

  lemma MovesKeepInv(s: State, l: Label)
    requires Inv(s) && OnlyMoves(l) && Next(s, l).Some?
    ensures Inv(Next(s, l).value)
  {
    var n := Next(s, l).value;
    var p := PhaseOf(n, l.thread);
    assert n == Goto(s, l.thread, p);
    if l.thread in s.phases {
      assert PhaseInv(s, s.phases[l.thread]);
    }
    if l.ReadCurrent? {
      assert RevisionAt(s.log, PhaseOf(s, l.thread).start) <= RevisionAt(s.log, |s.log| - 1);
    }
    MoveKeepsInv(s, l.thread, p);
  }

  lemma StepKeepsInv(s: State, l: Label)
    requires Inv(s) && Next(s, l).Some?
    ensures Inv(Next(s, l).value)
  {
    match l
    case CommitChange(change) => CommitKeepsInv(s, change);
    case LoadPolicy(t) => LoadKeepsInv(s, t);
    case ReadRevision(t) => ReadRevisionKeepsInv(s, t);
    case ReadRevisionFails(t) => ReadRevisionFailsKeepsInv(s, t);
    case Decide(t) => DecideKeepsInv(s, t);
    case _ => MovesKeepInv(s, l);
  }

  /** No step lowers the tag or rewrites the log. */
  lemma StepAdvances(s: State, l: Label)
    requires Inv(s) && Next(s, l).Some?
    ensures s.tag <= Next(s, l).value.tag && s.log <= Next(s, l).value.log
  {
    if l.CommitChange? {
      assert s.log <= s.log + [Commit(l.change.tables, Committed(s).revision + l.change.statements)];
    }
  }

  lemma {:induction false} RunKeepsInv(s: State, labels: seq<Label>)
    requires Inv(s) && Run(s, labels).Some?
    ensures Inv(Run(s, labels).value)
  {
    if labels != [] {
      RunKeepsInv(s, labels[..|labels| - 1]);
      StepKeepsInv(Run(s, labels[..|labels| - 1]).value, labels[|labels| - 1]);
    }
  }

  lemma InitialInv(tables: Tables, revision: nat)
    ensures Inv(Initial(tables, revision))
  {
    assert UsersOnly(tables, tables);
  }

  // ---------------------------------------------------------------------------------------------
  // Theorems
  // ---------------------------------------------------------------------------------------------

  /** The cached revision never decreases: of two moments of one run, the later tag is at least the earlier. */
  lemma {:induction false} TagNeverDecreases(tables: Tables, revision: nat, labels: seq<Label>, more: seq<Label>)
    requires Run(Initial(tables, revision), labels + more).Some?
    ensures Run(Initial(tables, revision), labels).Some?
    ensures Run(Initial(tables, revision), labels).value.tag <= Run(Initial(tables, revision), labels + more).value.tag
    decreases |more|
  {
    var start := Initial(tables, revision);
    if more == [] {
      assert labels + more == labels;
    } else {
      var all := labels + more;
      assert all[..|all| - 1] == labels + more[..|more| - 1];
      TagNeverDecreases(tables, revision, labels, more[..|more| - 1]);
      InitialInv(tables, revision);
      RunKeepsInv(start, all[..|all| - 1]);
      StepAdvances(Run(start, all[..|all| - 1]).value, all[|all| - 1]);
    }
  }

  /**
   Main theorem. In every interleaving of commits, loads and failures, each decision is taken at a tag no older than
   the revision at its call, by the policy of one committed moment; and that policy is older than the call exactly
   when a commit raised the revision between the two reads of the load that brought it and the call began no
   earlier than the first such commit: `racedAt` is the first revision the tag counts and the policy lacks.
   */
  lemma DecisionsAreFresh(tables: Tables, revision: nat, labels: seq<Label>, i: nat)
    requires Run(Initial(tables, revision), labels).Some?
    requires i < |Run(Initial(tables, revision), labels).value.decisions|
    ensures var s := Run(Initial(tables, revision), labels).value;
            var d := s.decisions[i];
            && d.start < |s.log| && d.readAt < |s.log|
            && RevisionAt(s.log, d.start) <= d.tag
            && (RevisionAt(s.log, d.readAt) < RevisionAt(s.log, d.start)
                <==> d.racedAt.Some? && d.racedAt.value <= RevisionAt(s.log, d.start))
            && IsFirstAfter(s.log, d.readAt, d.racedAt, d.tag)
  {
    InitialInv(tables, revision);
    RunKeepsInv(Initial(tables, revision), labels);
    var s := Run(Initial(tables, revision), labels).value;
    assert s.decisions[i] in s.decisions;
    assert DecisionInv(s.log, s.decisions[i]);
  }

  /**
   A decision that is not older than its call is the one the committed tables of some moment since the call would
   give, for every caller whose own flag is up to date then; commits that only touch users may have gone unseen.
   */
  lemma FreshDecisionIsCommitted(tables: Tables, revision: nat, labels: seq<Label>, i: nat, caller: Principal,
      act: string, scope: Scope)
    returns (k: nat)
    requires Run(Initial(tables, revision), labels).Some?
    requires i < |Run(Initial(tables, revision), labels).value.decisions|
    requires var s := Run(Initial(tables, revision), labels).value;
             var d := s.decisions[i];
             !(d.racedAt.Some? && d.start < |s.log| && d.racedAt.value <= RevisionAt(s.log, d.start))
    ensures var s := Run(Initial(tables, revision), labels).value;
            var d := s.decisions[i];
            && d.start <= k < |s.log| && d.readAt <= k
            && (KnownEnabled(s.log[k].tables, caller) ==>
                  Authorize(EffectivePolicy(s.log[d.readAt].tables), caller, act, scope)
                  == Authorize(EffectivePolicy(s.log[k].tables), caller, act, scope))
  {
    DecisionsAreFresh(tables, revision, labels, i);
    InitialInv(tables, revision);
    RunKeepsInv(Initial(tables, revision), labels);
    var s := Run(Initial(tables, revision), labels).value;
    var d := s.decisions[i];
    k := if d.start <= d.readAt then d.readAt else d.start;
    if KnownEnabled(s.log[k].tables, caller) {
      SameRevisionDecidesAlike(s.log, d.readAt, k, caller, act, scope);
    }
  }

  lemma SameRevisionDecidesAlike(log: seq<Commit>, i: nat, j: nat, caller: Principal, act: string, scope: Scope)
    requires LogInv(log) && i <= j < |log| && RevisionAt(log, i) >= RevisionAt(log, j)
    requires KnownEnabled(log[j].tables, caller)
    ensures Authorize(EffectivePolicy(log[i].tables), caller, act, scope)
         == Authorize(EffectivePolicy(log[j].tables), caller, act, scope)
  {
    assert RevisionAt(log, i) <= RevisionAt(log, j);
    MissedUserChangesDecideAlike(log[i].tables, log[j].tables, caller, act, scope);
  }

  // ---------------------------------------------------------------------------------------------
  // The race
  // ---------------------------------------------------------------------------------------------

  function RacingRun(newer: Tables): seq<Label> {
    [CallReload(1), LoadPolicy(1), CommitChange(Change(newer, 1)), ReadRevision(1),
     CallFresh(2), ReadCurrent(2), Compare(2), Decide(2)]
  }

  function RacingPhases(k: nat): map<Thread, Phase> {
    if k == 0 then map[]
    else if k == 1 then RacingPhases(0)[1 := Waiting(0, false)]
    else if k == 2 || k == 3 then RacingPhases(1)[1 := Loaded(0, false)]
    else if k == 4 then RacingPhases(2)[1 := Idle]
    else if k == 5 then RacingPhases(4)[2 := Checking(1, true)]
    else if k == 6 then RacingPhases(5)[2 := Comparing(1, true, 2)]
    else if k == 7 then RacingPhases(6)[2 := Deciding(1)]
    else RacingPhases(7)[2 := Idle]
  }

  /** The state after k steps of that run. */
  function RacingState(older: Tables, newer: Tables, k: nat): State {
    var log := if k < 3 then [Commit(older, 1)] else [Commit(older, 1)] + [Commit(newer, 2)];
    State(log, 0, if k < 4 then 1 else 2, if k < 3 then None else Some(2), if k < 4 then None else Some(2),
          if k == 2 || k == 3 then Some(1) else None, RacingPhases(k),
          if k < 8 then [] else [] + [Decision(1, 0, 2, Some(2))])
  }

  lemma RacingLoadSteps(older: Tables, newer: Tables, k: nat)
    requires k < 4
    ensures Next(RacingState(older, newer, k), RacingRun(newer)[k]) == Some(RacingState(older, newer, k + 1))
  {
    if k == 1 {
      assert RacingState(older, newer, 1).phases[1] == Waiting(0, false);
    } else if k == 3 {
      assert RacingState(older, newer, 3).phases[1] == Loaded(0, false);
    }
  }

  lemma LateRequestSteps(older: Tables, newer: Tables, k: nat)
    requires 4 <= k < 8
    ensures Next(RacingState(older, newer, k), RacingRun(newer)[k]) == Some(RacingState(older, newer, k + 1))
  {
  }

  /** States that follow one another by the labels are a run. */
  lemma {:induction false} StepsAreRun(states: seq<State>, labels: seq<Label>)
    requires |states| == |labels| + 1 && forall i | 0 <= i < |states| :: states[i].log != []
    requires forall i: nat, j: nat | i < |labels| && j == i + 1 :: Next(states[i], labels[i]) == Some(states[j])
    ensures Run(states[0], labels) == Some(states[|labels|])
  {
    if labels != [] {
      var n := |labels| - 1;
      StepsAreRun(states[..n + 1], labels[..n]);
      assert Next(states[n], labels[n]) == Some(states[n + 1]);
    }
  }

  /**
   The unconditional claim is false: a commit between the policy read and the revision read tags the older policy
   with the newer revision, and a call that begins afterwards is decided by the older policy.
   */
  lemma RacedDecisionCanBeStale(older: Tables, newer: Tables)
    ensures Run(Initial(older, 1), RacingRun(newer)).Some?
    ensures var s := Run(Initial(older, 1), RacingRun(newer)).value;
            && s.log == [Commit(older, 1), Commit(newer, 2)] && |s.decisions| == 1
            && s.decisions[0].start == 1 && s.decisions[0].readAt == 0
  {
    var states := seq(9, k requires 0 <= k < 9 => RacingState(older, newer, k));
    var labels := RacingRun(newer);
    forall i: nat, j: nat | i < |labels| && j == i + 1
      ensures Next(states[i], labels[i]) == Some(states[j])
    {
      if i < 4 {
        RacingLoadSteps(older, newer, i);
      } else {
        LateRequestSteps(older, newer, i);
      }
    }
    StepsAreRun(states, labels);
  }
}
