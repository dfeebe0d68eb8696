/** Argo CD observations, the catalog mapping they are checked against, and the onboarding row. */
module ArgoDomain {
  import opened Basics

  datatype Identity = Identity(namespace: string, name: string)

  datatype Source = Source(repositoryUrl: string, targetRevision: string, path: string, chart: string,
      reference: string, name: string)

  datatype Destination = Destination(server: string, name: string, namespace: string)

  datatype Application = Application(
    identity: Identity, project: string, labels: map<string, string>, sources: seq<Source>,
    destination: Destination, automatedSync: bool, resourceVersion: string)
  {
    /** Whether the exact opt-in label is present. */
    predicate IsCandidate() {
      "releasehub.io/managed" in labels && labels["releasehub.io/managed"] == "true"
    }
  }

  datatype CatalogSource = CatalogSource(repositoryUrl: string, targetRevision: string, path: string)

  datatype Target = Target(
    applicationId: Uuid, production: bool, argo: Identity, argoProject: string,
    destinationServer: string, destinationNamespace: string, source: CatalogSource, candidatePresent: bool)

  datatype Issue =
    | CandidateUnavailable
    | ApplicationUnavailable
    | ApplicationIdentityMismatch
    | ProductionRequired
    | ManagedLabelMissing
    | ProjectMismatch
    | DestinationMismatch
    | SourceMismatch
    | UpdatePermissionDenied
    | AutomatedSyncStillActive

  datatype DriftReason =
    | DriftApplicationMissing
    | DriftManagedLabelMissing
    | DriftAutomatedSyncEnabled
    | DriftProjectMismatch
    | DriftDestinationMismatch
    | DriftSourceMismatch

  predicate SourcePresent(expected: CatalogSource, actual: seq<Source>) {
    exists s <- actual ::
      s.repositoryUrl == expected.repositoryUrl && s.targetRevision == expected.targetRevision
          && s.path == expected.path
  }

  function When<T>(b: bool, x: T): seq<T> {
    if b then [x] else []
  }

  /** The labels of the facts that fail, in the order of the labels. */
  function Failing<T>(failed: seq<bool>, labels: seq<T>): seq<T>
    requires |failed| == |labels|
  {
    if labels == [] then []
    else
      var n := |labels| - 1;
      Failing(failed[..n], labels[..n]) + When(failed[n], labels[n])
  }

  lemma FailingNext<T>(failed: seq<bool>, labels: seq<T>, n: nat)
    requires n < |failed| == |labels|
    ensures Failing(failed[..n + 1], labels[..n + 1]) == Failing(failed[..n], labels[..n]) + When(failed[n], labels[n])
  {
    assert failed[..n + 1][..n] == failed[..n] && labels[..n + 1][..n] == labels[..n];
  }

  lemma {:induction false} FailingEmpty<T>(failed: seq<bool>, labels: seq<T>)
    requires |failed| == |labels|
    ensures Failing(failed, labels) == [] <==> forall i | 0 <= i < |failed| :: !failed[i]
  {
    if labels != [] {
      var n := |labels| - 1;
      FailingEmpty(failed[..n], labels[..n]);
    }
  }

  /** A label is reported exactly when a fact it stands for fails. */
  lemma {:induction false} FailingMember<T>(failed: seq<bool>, labels: seq<T>, x: T)
    requires |failed| == |labels|
    ensures x in Failing(failed, labels) <==> exists i :: 0 <= i < |labels| && labels[i] == x && failed[i]
  {
    if labels != [] {
      var n := |labels| - 1;
      FailingMember(failed[..n], labels[..n], x);
      if i :| 0 <= i < |labels| && labels[i] == x && failed[i] && i < n {
        assert labels[..n][i] == x && failed[..n][i];
      }
    }
  }

  lemma FailingAt<T>(failed: seq<bool>, labels: seq<T>, k: nat)
    requires k < |failed| == |labels| && forall i, j | 0 <= i < j < |labels| :: labels[i] != labels[j]
    ensures labels[k] in Failing(failed, labels) <==> failed[k]
  {
    FailingMember(failed, labels, labels[k]);
  }

  /** Labels keep their order: what is reported is the labels with some left out. */
  ghost predicate InOrder<T>(some: seq<T>, all: seq<T>) {
    || some == []
    || (all != [] && ((some[|some| - 1] == all[|all| - 1] && InOrder(some[..|some| - 1], all[..|all| - 1]))
                      || InOrder(some, all[..|all| - 1])))
  }

  lemma {:induction false} FailingInOrder<T>(failed: seq<bool>, labels: seq<T>)
    requires |failed| == |labels|
    ensures InOrder(Failing(failed, labels), labels)
  {
    if labels != [] {
      var n := |labels| - 1;
      var front := Failing(failed[..n], labels[..n]);
      FailingInOrder(failed[..n], labels[..n]);
      if failed[n] {
        assert (front + [labels[n]])[..|front|] == front;
      } else {
        assert front + [] == front;
      }
    }
  }

  /** The facts a fresh read is checked for, each true where it fails, and the issue that reports it. */
  function FailedFacts(t: Target, o: Application): seq<bool> {
    [!t.production, !t.candidatePresent, o.identity != t.argo, !o.IsCandidate(), o.project != t.argoProject,
     o.destination.server != t.destinationServer || o.destination.namespace != t.destinationNamespace,
     !SourcePresent(t.source, o.sources)]
  }

  const ISSUES: seq<Issue> := [
    ProductionRequired, CandidateUnavailable, ApplicationIdentityMismatch, ManagedLabelMissing, ProjectMismatch,
    DestinationMismatch, SourceMismatch]

  /** The issues of a fresh read, in the order they are reported. */
  function Issues(t: Target, o: Application): seq<Issue> {
    Failing(FailedFacts(t, o), ISSUES)
  }

  function ChangedFacts(t: Target, o: Application): seq<bool> {
    [!o.IsCandidate(), o.automatedSync, o.project != t.argoProject,
     o.destination.server != t.destinationServer || o.destination.namespace != t.destinationNamespace,
     !SourcePresent(t.source, o.sources)]
  }

  const REASONS: seq<DriftReason> := [
    DriftManagedLabelMissing, DriftAutomatedSyncEnabled, DriftProjectMismatch, DriftDestinationMismatch,
    DriftSourceMismatch]

  /** The drift of a tracked observation from the confirmed mapping, in the order it is reported. */
  function Drift(t: Target, o: Application, present: bool): seq<DriftReason> {
    if present then Failing(ChangedFacts(t, o), REASONS) else [DriftApplicationMissing]
  }

  method FindSource(expected: CatalogSource, actual: seq<Source>) returns (found: bool)
    ensures found <==> SourcePresent(expected, actual)
  {
    for i := 0 to |actual|
      invariant !SourcePresent(expected, actual[..i])
    {
      assert actual[..i + 1] == actual[..i] + [actual[i]];
      if actual[i].repositoryUrl == expected.repositoryUrl && actual[i].targetRevision == expected.targetRevision
          && actual[i].path == expected.path {
        assert actual[i] in actual;
        return true;
      }
    }
    assert actual[..|actual|] == actual;
    return false;
  }

  method AppendWhen<T>(list: seq<T>, b: bool, x: T) returns (r: seq<T>)
    ensures r == list + When(b, x)
  {
    r := list;
    if b {
      r := r + [x];
    }
  }

  /** What is reported once the first n facts have been looked at. */
  ghost predicate Reported<T>(list: seq<T>, failed: seq<bool>, labels: seq<T>, n: nat)
    requires n <= |failed| == |labels|
  {
    list == Failing(failed[..n], labels[..n])
  }

  /** One more fact looked at. */
  method Report<T>(list: seq<T>, ghost failed: seq<bool>, ghost labels: seq<T>, ghost n: nat, b: bool, x: T)
    returns (r: seq<T>)
    requires n < |failed| == |labels| && failed[n] == b && labels[n] == x
    requires Reported(list, failed, labels, n)
    ensures Reported(r, failed, labels, n + 1)
  {
    FailingNext(failed, labels, n);
    r := AppendWhen(list, b, x);
  }

  /** The facts about the application itself. */
  method ValidateIdentity(t: Target, o: Application) returns (issues: seq<Issue>)
    ensures Reported(issues, FailedFacts(t, o), ISSUES, 4)
  {
    ghost var failed := FailedFacts(t, o);
    issues := Report([], failed, ISSUES, 0, !t.production, ProductionRequired);
    issues := Report(issues, failed, ISSUES, 1, !t.candidatePresent, CandidateUnavailable);
    issues := Report(issues, failed, ISSUES, 2, o.identity != t.argo, ApplicationIdentityMismatch);
    issues := Report(issues, failed, ISSUES, 3, !o.IsCandidate(), ManagedLabelMissing);
  }

  method ValidateObservation(t: Target, o: Application) returns (issues: seq<Issue>)
    ensures issues == Issues(t, o)
  {
    ghost var failed := FailedFacts(t, o);
    issues := ValidateIdentity(t, o);
    issues := Report(issues, failed, ISSUES, 4, o.project != t.argoProject, ProjectMismatch);
    var elsewhere := o.destination.server != t.destinationServer || o.destination.namespace != t.destinationNamespace;
    issues := Report(issues, failed, ISSUES, 5, elsewhere, DestinationMismatch);
    var found := FindSource(t.source, o.sources);
    issues := Report(issues, failed, ISSUES, 6, !found, SourceMismatch);
    assert failed[..7] == failed && ISSUES[..7] == ISSUES;
  }

  method DetectDrift(t: Target, o: Application, present: bool) returns (reasons: seq<DriftReason>)
    ensures reasons == Drift(t, o, present)
  {
    if !present {
      return [DriftApplicationMissing];
    }
    ghost var changed := ChangedFacts(t, o);
    reasons := Report([], changed, REASONS, 0, !o.IsCandidate(), DriftManagedLabelMissing);
    reasons := Report(reasons, changed, REASONS, 1, o.automatedSync, DriftAutomatedSyncEnabled);
    reasons := Report(reasons, changed, REASONS, 2, o.project != t.argoProject, DriftProjectMismatch);
    var elsewhere := o.destination.server != t.destinationServer || o.destination.namespace != t.destinationNamespace;
    reasons := Report(reasons, changed, REASONS, 3, elsewhere, DriftDestinationMismatch);
    var found := FindSource(t.source, o.sources);
    reasons := Report(reasons, changed, REASONS, 4, !found, DriftSourceMismatch);
    assert changed[..5] == changed && REASONS[..5] == REASONS;
  }

  /** A source of the observation agrees with the mapping in its three fields. */
  ghost predicate HasSource(o: Application, expected: CatalogSource) {
    exists s :: s in o.sources
      && (s.repositoryUrl, s.targetRevision, s.path) == (expected.repositoryUrl, expected.targetRevision, expected.path)
  }

  /** The opt-in label. */
  ghost predicate OptedIn(o: Application) {
    "releasehub.io/managed" in o.labels && o.labels["releasehub.io/managed"] == "true"
  }

  lemma SourceIsThere(o: Application, expected: CatalogSource)
    ensures SourcePresent(expected, o.sources) <==> HasSource(o, expected)
  {
    if s :| s in o.sources && s.repositoryUrl == expected.repositoryUrl
            && s.targetRevision == expected.targetRevision && s.path == expected.path {
      assert HasSource(o, expected);
    }
  }

  /** Each issue is reported exactly when its own fact fails, and in this order. */
  lemma IssuesAreExact(t: Target, o: Application)
    ensures ProductionRequired in Issues(t, o) <==> !t.production
    ensures CandidateUnavailable in Issues(t, o) <==> !t.candidatePresent
    ensures ApplicationIdentityMismatch in Issues(t, o) <==>
            (o.identity.namespace, o.identity.name) != (t.argo.namespace, t.argo.name)
    ensures ManagedLabelMissing in Issues(t, o) <==> !OptedIn(o)
    ensures ProjectMismatch in Issues(t, o) <==> o.project != t.argoProject
    ensures DestinationMismatch in Issues(t, o) <==>
            (o.destination.server, o.destination.namespace) != (t.destinationServer, t.destinationNamespace)
    ensures SourceMismatch in Issues(t, o) <==> !HasSource(o, t.source)
    ensures InOrder(Issues(t, o), [ProductionRequired, CandidateUnavailable, ApplicationIdentityMismatch,
                                   ManagedLabelMissing, ProjectMismatch, DestinationMismatch, SourceMismatch])
  {
    var failed := FailedFacts(t, o);
    SourceIsThere(o, t.source);
    FailingAt(failed, ISSUES, 0);
    FailingAt(failed, ISSUES, 1);
    FailingAt(failed, ISSUES, 2);
    FailingAt(failed, ISSUES, 3);
    FailingAt(failed, ISSUES, 4);
    FailingAt(failed, ISSUES, 5);
    FailingAt(failed, ISSUES, 6);
    FailingInOrder(failed, ISSUES);
  }

  /** Each drift reason is reported exactly when its own fact differs; a missing application is the only reason. */
  lemma ReasonsAreExact(t: Target, o: Application, present: bool)
    ensures !present ==> Drift(t, o, present) == [DriftApplicationMissing]
    ensures present ==>
              && (DriftManagedLabelMissing in Drift(t, o, present) <==> !OptedIn(o))
              && (DriftAutomatedSyncEnabled in Drift(t, o, present) <==> o.automatedSync)
              && (DriftProjectMismatch in Drift(t, o, present) <==> o.project != t.argoProject)
              && (DriftDestinationMismatch in Drift(t, o, present) <==>
                  (o.destination.server, o.destination.namespace) != (t.destinationServer, t.destinationNamespace))
              && (DriftSourceMismatch in Drift(t, o, present) <==> !HasSource(o, t.source))
              && InOrder(Drift(t, o, present),
                         [DriftManagedLabelMissing, DriftAutomatedSyncEnabled, DriftProjectMismatch,
                          DriftDestinationMismatch, DriftSourceMismatch])
  {
    var changed := ChangedFacts(t, o);
    SourceIsThere(o, t.source);
    FailingAt(changed, REASONS, 0);
    FailingAt(changed, REASONS, 1);
    FailingAt(changed, REASONS, 2);
    FailingAt(changed, REASONS, 3);
    FailingAt(changed, REASONS, 4);
    FailingInOrder(changed, REASONS);
  }

  lemma ReadyIff(t: Target, o: Application)
    ensures Issues(t, o) == [] <==>
            && t.production && t.candidatePresent && o.identity == t.argo && o.IsCandidate()
            && o.project == t.argoProject && o.destination.server == t.destinationServer
            && o.destination.namespace == t.destinationNamespace && SourcePresent(t.source, o.sources)
  {
    var failed := FailedFacts(t, o);
    FailingEmpty(failed, ISSUES);
    if forall i | 0 <= i < |failed| :: !failed[i] {
      assert !failed[0] && !failed[1] && !failed[2] && !failed[3] && !failed[4] && !failed[5] && !failed[6];
    }
  }

  lemma UnchangedIff(t: Target, o: Application)
    ensures Drift(t, o, true) == [] <==>
            && o.IsCandidate() && !o.automatedSync && o.project == t.argoProject
            && o.destination.server == t.destinationServer && o.destination.namespace == t.destinationNamespace
            && SourcePresent(t.source, o.sources)
  {
    var changed := ChangedFacts(t, o);
    FailingEmpty(changed, REASONS);
    if forall i | 0 <= i < |changed| :: !changed[i] {
      assert !changed[0] && !changed[1] && !changed[2] && !changed[3] && !changed[4];
    }
  }

  /** The readback that lets an onboarding finish. */
  predicate CleanReadback(t: Target, o: Application) {
    Issues(t, o) == [] && !o.automatedSync
  }

  /** A readback is accepted exactly when it shows no drift and the three facts drift does not look at hold. */
  lemma AcceptedReadbackIffNoDrift(t: Target, o: Application)
    ensures CleanReadback(t, o)
            <==> Drift(t, o, true) == [] && o.identity == t.argo && t.production && t.candidatePresent
  {
    ReadyIff(t, o);
    UnchangedIff(t, o);
  }
}
