/**
 The reconciler: one complete list response from Argo CD, applied to the candidate, snapshot and onboarding
 tables in one transaction.
 */
module Reconciliation {
  import opened Basics
  import opened ArgoDomain
  import opened Lists
  import opened OnboardingRepository

  /** The observed columns of a candidate or snapshot row. */
  datatype Observation = Observation(
    project: string, labels: map<string, string>, sources: seq<Source>, destination: Destination,
    automatedSync: bool, resourceVersion: string)

  datatype Candidate = Candidate(
    observation: Observation, present: bool, firstSeenAt: int, lastSeenAt: int, missingSince: Option<int>,
    token: Uuid, version: nat)

  datatype Snapshot = Snapshot(
    observation: Observation, managedLabelPresent: bool, lastSeenAt: int, missingSince: Option<int>, token: Uuid,
    version: nat)

  datatype CatalogEntry = CatalogEntry(
    active: bool, argo: Identity, argoProject: string, destinationServer: string, destinationNamespace: string,
    source: CatalogSource)

  datatype Tables = Tables(
    catalog: map<Uuid, CatalogEntry>, candidates: map<Identity, Candidate>, snapshots: map<Uuid, Snapshot>, db: Db)

  /** One list response, the time it was taken and the token of its transaction. */
  datatype Cycle = Cycle(values: seq<Application>, observedAt: int, token: Uuid)

  datatype Counters = Counters(observed: nat, candidates: nat, newCandidates: nat, tracked: nat)

  function IdentityKey(i: Identity): string {
    i.namespace + "/" + i.name
  }

  function ObservationOf(o: Application): Observation {
    Observation(o.project, o.labels, o.sources, o.destination, o.automatedSync, o.resourceVersion)
  }

  /** Active applications have distinct identity keys. */
  ghost predicate Unambiguous(catalog: map<Uuid, CatalogEntry>) {
    forall a, b | a in catalog && b in catalog && catalog[a].active && catalog[b].active ::
      IdentityKey(catalog[a].argo) == IdentityKey(catalog[b].argo) ==> a == b
  }

  /** The application tracked under an identity key. */
  function Tracked(catalog: map<Uuid, CatalogEntry>): map<string, Uuid>
    requires Unambiguous(catalog)
  {
    map a | a in catalog && catalog[a].active :: IdentityKey(catalog[a].argo) := a
  }

  /** Keys identify when namespaces hold no slash, as Kubernetes names never do. */
  lemma IdentityKeyInjective(a: Identity, b: Identity)
    requires '/' !in a.namespace && '/' !in b.namespace && IdentityKey(a) == IdentityKey(b)
    ensures a == b
  {
    CutAtFirst('/', a.namespace, b.namespace, a.name, b.name);
  }

  /** Unique identities without slashes give unambiguous keys. */
  lemma UniqueIdentitiesAreUnambiguous(catalog: map<Uuid, CatalogEntry>)
    requires forall a <- catalog :: '/' !in catalog[a].argo.namespace
    requires forall a, b | a in catalog && b in catalog :: catalog[a].argo == catalog[b].argo ==> a == b
    ensures Unambiguous(catalog)
  {
    forall a, b | a in catalog && b in catalog && IdentityKey(catalog[a].argo) == IdentityKey(catalog[b].argo)
      ensures a == b
    {
      IdentityKeyInjective(catalog[a].argo, catalog[b].argo);
    }
  }

  // ---------------------------------------------------------------------------------------------
  // The transaction as a function of the tables
  // ---------------------------------------------------------------------------------------------

  function SeenCandidate(candidates: map<Identity, Candidate>, o: Application, c: Cycle): Candidate {
    if o.identity in candidates
    then Candidate(ObservationOf(o), true, candidates[o.identity].firstSeenAt, c.observedAt, None, c.token,
        candidates[o.identity].version + 1)
    else Candidate(ObservationOf(o), true, c.observedAt, c.observedAt, None, c.token, 1)
  }

  function SeenSnapshot(snapshots: map<Uuid, Snapshot>, app: Uuid, o: Application, c: Cycle): Snapshot {
    Snapshot(ObservationOf(o), o.IsCandidate(), c.observedAt, None, c.token, if app in snapshots
        then snapshots[app].version + 1 else 1)
  }

  /** The candidates after one value. */
  function AfterValue(candidates: map<Identity, Candidate>, o: Application, c: Cycle): map<Identity, Candidate> {
    if o.IsCandidate() then candidates[o.identity := SeenCandidate(candidates, o, c)] else candidates
  }

  /** The snapshots after one value. */
  function AfterTracked(snapshots: map<Uuid, Snapshot>, tracked: map<string, Uuid>, o: Application,
      c: Cycle): map<Uuid, Snapshot> {
    var key := IdentityKey(o.identity);
    if key in tracked then snapshots[tracked[key] := SeenSnapshot(snapshots, tracked[key], o, c)] else snapshots
  }

  /** The candidates after the first n values. */
  function CandidatesAfter(candidates: map<Identity, Candidate>, c: Cycle, n: nat): map<Identity, Candidate>
    requires n <= |c.values|
  {
    if n == 0 then candidates else AfterValue(CandidatesAfter(candidates, c, n - 1), c.values[n - 1], c)
  }

  /** The snapshots after the first n values. */
  function SnapshotsAfter(snapshots: map<Uuid, Snapshot>, tracked: map<string, Uuid>, c: Cycle,
      n: nat): map<Uuid, Snapshot>
    requires n <= |c.values|
  {
    if n == 0 then snapshots
    else AfterTracked(SnapshotsAfter(snapshots, tracked, c, n - 1), tracked, c.values[n - 1], c)
  }

  function MarkMissingCandidates(candidates: map<Identity, Candidate>, c: Cycle): map<Identity, Candidate> {
    map i | i in candidates ::
      if candidates[i].present && candidates[i].token != c.token
      then candidates[i].(present := false, missingSince := Some(c.observedAt), version := candidates[i].version + 1)
      else candidates[i]
  }

  function MarkMissingSnapshots(snapshots: map<Uuid, Snapshot>, c: Cycle): map<Uuid, Snapshot> {
    map a | a in snapshots ::
      if snapshots[a].missingSince.None? && snapshots[a].token != c.token
      then snapshots[a].(missingSince := Some(c.observedAt), version := snapshots[a].version + 1)
      else snapshots[a]
  }

  /** The confirmed mapping as drift detection rebuilds it; production and candidate presence are not looked at. */
  function MappingOf(app: Uuid, e: CatalogEntry): Target {
    Target(app, false, e.argo, e.argoProject, e.destinationServer, e.destinationNamespace, e.source, false)
  }

  /** A stored snapshot read back as an observation of the mapped application. */
  function Restored(e: CatalogEntry, s: Snapshot): Application {
    Application(e.argo, s.observation.project, s.observation.labels, s.observation.sources,
                Destination(s.observation.destination.server, "", s.observation.destination.namespace),
                s.observation.automatedSync, "")
  }

  /** The drift of an application's stored snapshot from its mapping. */
  function StoredDrift(catalog: map<Uuid, CatalogEntry>, snapshots: map<Uuid, Snapshot>, app: Uuid): seq<DriftReason>
    requires app in catalog
  {
    if app in snapshots && snapshots[app].missingSince.None?
    then Drift(MappingOf(app, catalog[app]), Restored(catalog[app], snapshots[app]), true)
    else [DriftApplicationMissing]
  }

  predicate Listed(t: Tables, app: Uuid) {
    app in t.db.rows && t.db.rows[app].status == Managed && app in t.catalog
  }

  /** The managed applications whose stored snapshot drifts, with the reasons. */
  function DriftMarks(t: Tables): map<Uuid, seq<DriftReason>> {
    map app | app in t.db.rows && Listed(t, app) && StoredDrift(t.catalog, t.snapshots, app) != [] ::
      StoredDrift(t.catalog, t.snapshots, app)
  }

  /** A row with these drift reasons: it leaves Managed when there are any. */
  function Marked(row: Onboarding, reasons: seq<DriftReason>, now: int): Onboarding {
    if row.status == Managed && reasons != []
    then row.(status := ConfigurationDrift, driftDetectedAt := Some(now), driftReasons := reasons,
              version := row.version + 1)
    else row
  }

  lemma MarkDriftRow(t: Tables, app: Uuid, now: int)
    requires app in t.db.rows
    ensures MarkDriftOn(t.db, DriftMarks(t), now).rows[app]
            == (if app in t.catalog then Marked(t.db.rows[app], StoredDrift(t.catalog, t.snapshots, app), now)
                else t.db.rows[app])
  {
  }

  /** The rows once those of a set have been looked at. */
  ghost predicate MarkedRows(before: Tables, db: Db, done: set<Uuid>, now: int) {
    && done <= before.db.rows.Keys && (forall app <- done :: app in before.catalog)
    && db == before.db.(rows := db.rows) && db.rows.Keys == before.db.rows.Keys
    && forall app <- before.db.rows ::
         db.rows[app] == if app in done then Marked(before.db.rows[app], StoredDrift(before.catalog, before.snapshots,
             app), now) else before.db.rows[app]
  }

  lemma AllMarked(before: Tables, db: Db, done: set<Uuid>, now: int)
    requires MarkedRows(before, db, done, now) && forall app <- before.db.rows :: Listed(before, app) ==> app in done
    ensures db == MarkDriftOn(before.db, DriftMarks(before), now)
  {
    forall app | app in before.db.rows
      ensures db.rows[app] == MarkDriftOn(before.db, DriftMarks(before), now).rows[app]
    {
      MarkDriftRow(before, app, now);
    }
    assert db.rows == MarkDriftOn(before.db, DriftMarks(before), now).rows;
  }

  /** The observations of a committed cycle, before drift is marked. */
  function ObservedOn(t: Tables, c: Cycle): Tables
    requires Unambiguous(t.catalog)
  {
    t.(candidates := MarkMissingCandidates(CandidatesAfter(t.candidates, c, |c.values|), c),
       snapshots := MarkMissingSnapshots(SnapshotsAfter(t.snapshots, Tracked(t.catalog), c, |c.values|), c))
  }

  /** The tables after a committed cycle; the onboarding rows take the drift step of the protocol. */
  function ReconcileOn(t: Tables, c: Cycle): Tables
    requires Unambiguous(t.catalog)
  {
    var o := ObservedOn(t, c);
    o.(db := MarkDriftOn(o.db, DriftMarks(o), c.observedAt))
  }

  /** The counters after one value. */
  function Counted(k: Counters, o: Application, known: bool, tracked: bool): Counters {
    k.(candidates := k.candidates + (if o.IsCandidate() then 1 else 0),
       newCandidates := k.newCandidates + (if o.IsCandidate() && !known then 1 else 0),
       tracked := k.tracked + (if tracked then 1 else 0))
  }

  function CountersAfter(t: Tables, c: Cycle, n: nat): Counters
    requires Unambiguous(t.catalog) && n <= |c.values|
  {
    if n == 0 then Counters(|c.values|, 0, 0, 0)
    else
      var key := IdentityKey(c.values[n - 1].identity);
      Counted(CountersAfter(t, c, n - 1), c.values[n - 1], KnownKey(t.candidates, key), key in Tracked(t.catalog))
  }

  lemma OneValueMore(t: Tables, c: Cycle, n: nat)
    requires Unambiguous(t.catalog) && n < |c.values|
    ensures CandidatesAfter(t.candidates, c, n + 1) == AfterValue(CandidatesAfter(t.candidates, c, n), c.values[n], c)
    ensures var tracked := Tracked(t.catalog);
            SnapshotsAfter(t.snapshots, tracked, c, n + 1) == AfterTracked(SnapshotsAfter(t.snapshots, tracked, c, n),
                tracked, c.values[n], c)
    ensures var key := IdentityKey(c.values[n].identity);
            CountersAfter(t, c, n + 1) == Counted(CountersAfter(t, c, n), c.values[n], KnownKey(t.candidates, key),
                key in Tracked(t.catalog))
  {
  }

  predicate KnownKey(candidates: map<Identity, Candidate>, key: string) {
    exists i <- candidates.Keys :: IdentityKey(i) == key
  }

  // ---------------------------------------------------------------------------------------------
  // The repository
  // ---------------------------------------------------------------------------------------------

  class Repository {
    var catalog: map<Uuid, CatalogEntry>
    var candidates: map<Identity, Candidate>
    var snapshots: map<Uuid, Snapshot>
    var db: Db

    constructor (t: Tables)
      ensures View() == t
    {
      catalog, candidates, snapshots, db := t.catalog, t.candidates, t.snapshots, t.db;
    }

    function View(): Tables
      reads this
    {
      Tables(catalog, candidates, snapshots, db)
    }

    method LoadCandidateKeys() returns (keys: set<string>)
      ensures forall key :: key in keys <==> KnownKey(candidates, key)
    {
      keys := set i | i in candidates.Keys :: IdentityKey(i);
    }

    method LoadTracked() returns (tracked: map<string, Uuid>)
      requires Unambiguous(catalog)
      ensures tracked == Tracked(catalog)
    {
      tracked := map[];
      var rest := catalog.Keys;
      while rest != {}
        invariant rest <= catalog.Keys
        invariant forall key <- tracked :: tracked[key] in catalog.Keys - rest
        invariant forall key <- tracked ::
                    (catalog[tracked[key]].active && IdentityKey(catalog[tracked[key]].argo) == key)
        invariant forall a <- catalog.Keys - rest :: catalog[a].active ==> IdentityKey(catalog[a].argo) in tracked
        decreases |rest|
      {
        var a :| a in rest;
        if catalog[a].active {
          tracked := tracked[IdentityKey(catalog[a].argo) := a];
        }
        rest := rest - {a};
      }
    }

    /** The reasons of one listed row. */
    method Reasons(app: Uuid) returns (reasons: seq<DriftReason>)
      requires app in catalog
      ensures reasons == StoredDrift(catalog, snapshots, app)
    {
      if app in snapshots && snapshots[app].missingSince.None? {
        reasons := DetectDrift(MappingOf(app, catalog[app]), Restored(catalog[app], snapshots[app]), true);
      } else {
        reasons := [DriftApplicationMissing];
      }
    }

    /** Moves one row out of Managed, if it still is. */
    method MarkRow(app: Uuid, reasons: seq<DriftReason>, observedAt: int)
      requires app in db.rows
      modifies this`db
      ensures db == old(db).(rows := old(db).rows[app := Marked(old(db).rows[app], reasons, observedAt)])
    {
      if |reasons| > 0 && db.rows[app].status == Managed {
        var row := db.rows[app].(status := ConfigurationDrift, driftDetectedAt := Some(observedAt));
        db := db.(rows := db.rows[app := row.(driftReasons := reasons, version := row.version + 1)]);
      }
    }

    /** Marks the managed rows whose snapshot drifts, one row at a time in whatever order they are read. */
    method DetectManagedDrift(observedAt: int)
      modifies this`db
      ensures db == MarkDriftOn(old(db), DriftMarks(old(View())), observedAt)
    {
      ghost var before := View();
      var listed := set app | app in db.rows.Keys && db.rows[app].status == Managed && app in catalog;
      ghost var all := listed;
      while listed != {}
        invariant listed <= all && MarkedRows(before, db, all - listed, observedAt)
        decreases |listed|
      {
        var app :| app in listed;
        var reasons := Reasons(app);
        MarkRow(app, reasons, observedAt);
        listed := listed - {app};
      }
      AllMarked(before, db, all, observedAt);
    }

    /** One value of the list: the candidate if it is labelled, the snapshot if it is tracked. */
    method ObserveValue(c: Cycle, n: nat, known: set<string>, tracked: map<string, Uuid>, counters: Counters)
      returns (result: Counters)
      requires n < |c.values|
      modifies this`candidates, this`snapshots
      ensures candidates == AfterValue(old(candidates), c.values[n], c)
      ensures snapshots == AfterTracked(old(snapshots), tracked, c.values[n], c)
      ensures result == Counted(counters, c.values[n], IdentityKey(c.values[n].identity) in known,
              IdentityKey(c.values[n].identity) in tracked)
    {
      result := counters;
      var value := c.values[n];
      var key := IdentityKey(value.identity);
      if value.IsCandidate() {
        result := result.(candidates := result.candidates + 1);
        candidates := candidates[value.identity := SeenCandidate(candidates, value, c)];
        if key !in known {
          result := result.(newCandidates := result.newCandidates + 1);
        }
      }
      if key in tracked {
        result := result.(tracked := result.tracked + 1);
        snapshots := snapshots[tracked[key] := SeenSnapshot(snapshots, tracked[key], value, c)];
      }
    }

    /** Every value of the list, in order. */
    method ObserveAll(c: Cycle) returns (result: Counters)
      requires Unambiguous(catalog)
      modifies this`candidates, this`snapshots
      ensures candidates == CandidatesAfter(old(candidates), c, |c.values|)
      ensures snapshots == SnapshotsAfter(old(snapshots), Tracked(catalog), c, |c.values|)
      ensures result == CountersAfter(old(View()), c, |c.values|)
    {
      ghost var before := View();
      var known := LoadCandidateKeys();
      var tracked := LoadTracked();
      result := Counters(|c.values|, 0, 0, 0);
      for n := 0 to |c.values|
        invariant candidates == CandidatesAfter(before.candidates, c, n)
        invariant snapshots == SnapshotsAfter(before.snapshots, tracked, c, n)
        invariant result == CountersAfter(before, c, n)
      {
        OneValueMore(before, c, n);
        result := ObserveValue(c, n, known, tracked, result);
      }
    }

    method MarkMissing(c: Cycle)
      modifies this`candidates, this`snapshots
      ensures candidates == MarkMissingCandidates(old(candidates), c)
              && snapshots == MarkMissingSnapshots(old(snapshots), c)
    {
      candidates := MarkMissingCandidates(candidates, c);
      snapshots := MarkMissingSnapshots(snapshots, c);
    }

    method Reconcile(c: Cycle) returns (result: Counters)
      requires Unambiguous(catalog)
      modifies this
      ensures View() == ReconcileOn(old(View()), c)
      ensures result == CountersAfter(old(View()), c, |c.values|)
    {
      result := ObserveAll(c);
      MarkMissing(c);
      assert View() == ObservedOn(old(View()), c);
      DetectManagedDrift(c.observedAt);
    }
  }
}
