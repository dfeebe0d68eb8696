/** What the onboarding protocol can always do next: from every reachable state a confirmation can be completed. */
module OnboardingProgress {
  import opened Basics
  import opened ArgoDomain
  import opened OnboardingRepository
  import opened OnboardingRuns

  /** Steps that are possible one after the other and lead from one state to another. */
  ghost predicate Leads(s: State, steps: seq<Step>, end: State)
    decreases |steps|
  {
    if steps == [] then end == s
    else Next(s, steps[0]).Some? && Leads(Next(s, steps[0]).value, steps[1..], end)
  }

  lemma {:induction false} LeadsJoin(s: State, first: seq<Step>, mid: State, rest: seq<Step>, end: State)
    requires Leads(s, first, mid) && Leads(mid, rest, end)
    ensures Leads(s, first + rest, end)
    decreases |first|
  {
    if first == [] {
      assert first + rest == rest;
    } else {
      LeadsJoin(Next(s, first[0]).value, first[1..], mid, rest, end);
      assert (first + rest)[1..] == first[1..] + rest;
    }
  }

  lemma LeadsOne(s: State, step: Step, end: State)
    requires Next(s, step) == Some(end)
    ensures Leads(s, [step], end)
  {
    assert [step][1..] == [];
  }

  /** A run goes on by any steps that are possible from its last state. */
  lemma {:induction false} RunGoesOn(r: Run, steps: seq<Step>, end: State) returns (longer: Run)
    requires Valid(r) && Leads(r.states[|r.steps|], steps, end)
    ensures Valid(longer) && longer.steps == r.steps + steps && longer.states[|longer.steps|] == end
    ensures |longer.states| >= |r.states| && longer.states[..|r.states|] == r.states
    decreases |steps|
  {
    if steps == [] {
      longer := r;
    } else {
      var last := r.states[|r.steps|];
      var one := Run(r.states + [Next(last, steps[0]).value], r.steps + [steps[0]]);
      assert Valid(one) by {
        forall i, j | 0 <= i < |one.steps| && j == i + 1
          ensures Next(one.states[i], one.steps[i]) == Some(one.states[j])
        {
          if i < |r.steps| {
            assert Next(r.states[i], r.steps[i]) == Some(r.states[j]);
          }
        }
      }
      longer := RunGoesOn(one, steps[1..], end);
      assert r.steps + steps == one.steps + steps[1..];
      assert longer.states[..|r.states|] == longer.states[..|one.states|][..|r.states|];
    }
  }

  /** A confirmation, a fresh read, the mutation when it is needed, a readback and the closing transaction. */
  function Completion(a: Actor, t: Target, expected: nat, resourceVersion: string, key: CommandKey, command: Command,
                      first: Application, readback: Application): seq<Step> {
    [ConfirmIdempotent(a, t, expected, resourceVersion, key, command), Observe(a, Some(first))]
    + ((if first.automatedSync then [Disable(a, true)] else []) + [ReadBack(a, Some(readback)), Finish(a)])
  }

  /** The row of an application waits for a confirmation at this version, and nobody has used the key. */
  ghost predicate AwaitsConfirmation(s: State, app: Uuid, version: nat, key: CommandKey) {
    && app in s.db.applications && app in s.db.rows
    && s.db.rows[app].status == AwaitingConfirmation && s.db.rows[app].version == version
    && key !in s.db.commands
  }

  /** The actor has entered Applying under its key and is about to look at Argo CD. */
  ghost predicate HasEntered(s: State, a: Actor, t: Target, version: nat, key: CommandKey, progress: Progress) {
    && a in s.procs && |s.procs[a].queue| == 1 && s.procs[a].progress == progress
    && s.procs[a].queue[0].target == t && s.procs[a].queue[0].version == version
    && t.applicationId in s.db.applications && t.applicationId in s.db.rows
    && s.db.rows[t.applicationId].status == Applying && s.db.rows[t.applicationId].version == version
    && key in s.db.commands && s.db.commands[key].applicationId == t.applicationId
    && s.db.commands[key].state == Accepted && key.operation == Confirm
  }

  /** The application is Managed at this version, and the command under the key says so. */
  ghost predicate HasCompleted(s: State, app: Uuid, version: nat, key: CommandKey) {
    && app in s.db.rows && s.db.rows[app].status == Managed && s.db.rows[app].version == version
    && key in s.db.commands && s.db.commands[key].state == Completed
    && s.db.commands[key].onboardingStatus == Some(Managed) && s.db.commands[key].onboardingVersion == Some(version)
  }

  /** A validation without issues makes any application wait that is neither in progress nor managed. */
  lemma CanAwait(s: State, app: Uuid, resourceVersion: string, key: CommandKey) returns (next: State)
    requires app in s.db.applications && key !in s.db.commands
    requires app in s.db.rows ==> s.db.rows[app].status !in {Applying, Managed}
    ensures Next(s, SaveValidation(app, [], resourceVersion)) == Some(next)
    ensures AwaitsConfirmation(next, app, if app in s.db.rows then s.db.rows[app].version + 1 else 1, key)
  {
    next := Next(s, SaveValidation(app, [], resourceVersion)).value;
  }

  lemma CanEnter(s: State, a: Actor, t: Target, expected: nat, resourceVersion: string, key: CommandKey,
                 command: Command) returns (next: State)
    requires AwaitsConfirmation(s, t.applicationId, expected, key) && (a in s.procs ==> s.procs[a].queue == [])
    requires FreshConfirm(t.applicationId, key, command)
    ensures Next(s, ConfirmIdempotent(a, t, expected, resourceVersion, key, command)) == Some(next)
    ensures HasEntered(next, a, t, expected + 1, key, Starting)
  {
    next := Next(s, ConfirmIdempotent(a, t, expected, resourceVersion, key, command)).value;
  }

  lemma CanObserve(s: State, a: Actor, t: Target, version: nat, key: CommandKey, first: Application)
    returns (next: State)
    requires HasEntered(s, a, t, version, key, Starting) && Issues(t, first) == []
    ensures Next(s, Observe(a, Some(first))) == Some(next)
    ensures HasEntered(next, a, t, version, key, if first.automatedSync then MustDisable else MustReadBack)
  {
    next := Next(s, Observe(a, Some(first))).value;
  }

  lemma CanDisable(s: State, a: Actor, t: Target, version: nat, key: CommandKey) returns (next: State)
    requires HasEntered(s, a, t, version, key, MustDisable)
    ensures Next(s, Disable(a, true)) == Some(next) && HasEntered(next, a, t, version, key, MustReadBack)
  {
    next := Next(s, Disable(a, true)).value;
  }

  lemma CanReadBack(s: State, a: Actor, t: Target, version: nat, key: CommandKey, readback: Application)
    returns (next: State)
    requires HasEntered(s, a, t, version, key, MustReadBack) && CleanReadback(t, readback)
    ensures Next(s, ReadBack(a, Some(readback))) == Some(next)
    ensures HasEntered(next, a, t, version, key, Accepting(s.now, readback))
  {
    next := Next(s, ReadBack(a, Some(readback))).value;
  }

  lemma CanFinish(s: State, a: Actor, t: Target, version: nat, key: CommandKey, at: nat, readback: Application)
    returns (next: State)
    requires HasEntered(s, a, t, version, key, Accepting(at, readback))
    ensures Next(s, Finish(a)) == Some(next) && HasCompleted(next, t.applicationId, version + 1, key)
  {
    next := Next(s, Finish(a)).value;
  }

  lemma CanSettle(s: State, a: Actor, t: Target, version: nat, key: CommandKey, first: Application,
                  readback: Application) returns (end: State)
    requires HasEntered(s, a, t, version, key, if first.automatedSync then MustDisable else MustReadBack)
    requires CleanReadback(t, readback)
    ensures Leads(s, (if first.automatedSync then [Disable(a, true)] else [])
                     + [ReadBack(a, Some(readback)), Finish(a)], end)
    ensures HasCompleted(end, t.applicationId, version + 1, key)
  {
    var ready := s;
    if first.automatedSync {
      ready := CanDisable(s, a, t, version, key);
      LeadsOne(s, Disable(a, true), ready);
    }
    var read := CanReadBack(ready, a, t, version, key, readback);
    end := CanFinish(read, a, t, version, key, ready.now, readback);
    LeadsOne(ready, ReadBack(a, Some(readback)), read);
    LeadsOne(read, Finish(a), end);
    LeadsJoin(ready, [ReadBack(a, Some(readback))], read, [Finish(a)], end);
    assert [ReadBack(a, Some(readback))] + [Finish(a)] == [ReadBack(a, Some(readback)), Finish(a)];
    LeadsJoin(s, if first.automatedSync then [Disable(a, true)] else [], ready,
              [ReadBack(a, Some(readback)), Finish(a)], end);
  }

  /**
   The protocol is never stuck. Whatever has happened before, an actor with nothing in hand can confirm an application
   that awaits it under an unused key, and if Argo CD then answers as expected the application ends Managed two
   versions later and the command completed with that version.
   */
  lemma ConfirmationCanComplete(r: Run, a: Actor, t: Target, expected: nat, resourceVersion: string, key: CommandKey,
                                command: Command, first: Application, readback: Application) returns (longer: Run)
    requires Valid(r) && AwaitsConfirmation(r.states[|r.steps|], t.applicationId, expected, key)
    requires a in r.states[|r.steps|].procs ==> r.states[|r.steps|].procs[a].queue == []
    requires FreshConfirm(t.applicationId, key, command) && Issues(t, first) == [] && CleanReadback(t, readback)
    ensures Valid(longer) && |longer.states| >= |r.states| && longer.states[..|r.states|] == r.states
    ensures longer.steps == r.steps + Completion(a, t, expected, resourceVersion, key, command, first, readback)
    ensures HasCompleted(longer.states[|longer.steps|], t.applicationId, expected + 2, key)
  {
    var s := r.states[|r.steps|];
    var confirm := ConfirmIdempotent(a, t, expected, resourceVersion, key, command);
    var entered := CanEnter(s, a, t, expected, resourceVersion, key, command);
    var observed := CanObserve(entered, a, t, expected + 1, key, first);
    var end := CanSettle(observed, a, t, expected + 1, key, first, readback);
    LeadsOne(s, confirm, entered);
    LeadsOne(entered, Observe(a, Some(first)), observed);
    LeadsJoin(s, [confirm], entered, [Observe(a, Some(first))], observed);
    assert [confirm] + [Observe(a, Some(first))] == [confirm, Observe(a, Some(first))];
    LeadsJoin(s, [confirm, Observe(a, Some(first))], observed,
              (if first.automatedSync then [Disable(a, true)] else []) + [ReadBack(a, Some(readback)), Finish(a)], end);
    longer := RunGoesOn(r, Completion(a, t, expected, resourceVersion, key, command, first, readback), end);
  }
}
