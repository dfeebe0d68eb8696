/** What one reconciliation writes, row by row and column by column, and what its counters count. */
module ReconciliationLaws {
  import opened Basics
  import opened ArgoDomain
  import opened OnboardingRepository
  import opened Reconciliation
  import opened ReconciliationRuns

  // ---------------------------------------------------------------------------------------------
  // Counting
  // ---------------------------------------------------------------------------------------------

  /** How many of the first n indices pass a test. */
  ghost function Count(n: nat, test: nat -> bool): nat {
    if n == 0 then 0 else Count(n - 1, test) + if test(n - 1) then 1 else 0
  }

  lemma {:induction false} CountIsCardinality(n: nat, test: nat -> bool)
    ensures Count(n, test) == |set k: nat | k < n && test(k)|
  {
    var all := set k: nat | k < n && test(k);
    if n == 0 {
      assert all == {};
    } else {
      CountIsCardinality(n - 1, test);
      var before := set k: nat | k < n - 1 && test(k);
      if test(n - 1) {
        assert all == before + {n - 1};
      } else {
        assert all == before;
      }
    }
  }

  /** The opt-in label, written out. */
  ghost predicate IsOptedIn(o: Application) {
    "releasehub.io/managed" in o.labels && o.labels["releasehub.io/managed"] == "true"
  }

  /** The nth value carries this identity and the label. */
  ghost function OptsIn(c: Cycle, i: Identity): nat -> bool {
    (n: nat) => n < |c.values| && c.values[n].identity == i && IsOptedIn(c.values[n])
  }

  /** The nth value carries the namespace and name of this active application. */
  ghost function Sights(c: Cycle, catalog: map<Uuid, CatalogEntry>, app: Uuid): nat -> bool {
    (n: nat) => && n < |c.values| && app in catalog && catalog[app].active
                && c.values[n].identity.namespace + "/" + c.values[n].identity.name
                   == catalog[app].argo.namespace + "/" + catalog[app].argo.name
  }

  lemma SightsIsSighted(c: Cycle, catalog: map<Uuid, CatalogEntry>, app: Uuid, k: nat)
    requires Unambiguous(catalog) && k < |c.values|
    ensures Sights(c, catalog, app)(k) <==> SightedAt(c, Tracked(catalog), k, app)
  {
  }

  /** The observed columns of a row are those of a value of the list. */
  ghost function Columns(o: Application): Observation {
    Observation(o.project, o.labels, o.sources, o.destination, o.automatedSync, o.resourceVersion)
  }

  // ---------------------------------------------------------------------------------------------
  // Candidates
  // ---------------------------------------------------------------------------------------------

  ghost predicate LastOf(test: nat -> bool, n: nat, k: nat) {
    k < n && test(k) && forall j: nat | k < j < n :: !test(j)
  }

  /** A candidate last labelled at index k shows that value; its version counts every labelled sighting. */
  lemma {:induction false} CandidateAfterValues(m: map<Identity, Candidate>, c: Cycle, n: nat, k: nat, i: Identity)
    requires n <= |c.values| && LastOf(OptsIn(c, i), n, k)
    ensures var after := CandidatesAfter(m, c, n);
            && i in after
            && after[i] == Candidate(
                 Columns(c.values[k]), true, if i in m then m[i].firstSeenAt else c.observedAt, c.observedAt, None,
                 c.token, (if i in m then m[i].version else 0) + Count(n, OptsIn(c, i)))
  {
    if k < n - 1 {
      CandidateAfterValues(m, c, n - 1, k, i);
      assert !OptsIn(c, i)(n - 1);
    } else {
      CandidateBefore(m, c, n - 1, i);
    }
  }

  /** First seen and version, whether the candidate was labelled already or not. */
  lemma {:induction false} CandidateBefore(m: map<Identity, Candidate>, c: Cycle, n: nat, i: Identity)
    requires n <= |c.values|
    ensures var after := CandidatesAfter(m, c, n);
            var count := Count(n, OptsIn(c, i));
            && (i in after <==> i in m || count > 0)
            && (i in after ==>
                  && after[i].version == (if i in m then m[i].version else 0) + count
                  && after[i].firstSeenAt == if i in m then m[i].firstSeenAt else c.observedAt)
  {
    if n > 0 {
      CandidateBefore(m, c, n - 1, i);
    }
  }

  /** The candidate row after a cycle whose list labels it, last at index k. */
  lemma LabelledCandidateRow(t: Tables, c: Cycle, i: Identity, k: nat)
    requires Unambiguous(t.catalog) && LastOf(OptsIn(c, i), |c.values|, k)
    ensures var after := ReconcileOn(t, c).candidates;
            && i in after
            && after[i] == Candidate(
                 Columns(c.values[k]), true, if i in t.candidates then t.candidates[i].firstSeenAt else c.observedAt,
                 c.observedAt, None, c.token,
                 (if i in t.candidates then t.candidates[i].version else 0) + Count(|c.values|, OptsIn(c, i)))
  {
    CandidateAfterValues(t.candidates, c, |c.values|, k, i);
  }

  /** The row after a cycle whose list does not label it: a present one is marked missing, any other is untouched. */
  lemma UnlabelledCandidateRow(t: Tables, c: Cycle, i: Identity)
    requires Unambiguous(t.catalog) && NewToken(t, c.token) && forall k: nat :: !OptsIn(c, i)(k)
    ensures var after := ReconcileOn(t, c).candidates;
            && (i in after <==> i in t.candidates)
            && (i in after && t.candidates[i].present ==>
                  after[i] == t.candidates[i].(present := false, missingSince := Some(c.observedAt),
                                               version := t.candidates[i].version + 1))
            && (i in after && !t.candidates[i].present ==> after[i] == t.candidates[i])
  {
    CandidatesAfterValues(t.candidates, c, |c.values|, i);
    forall k: nat | k < |c.values|
      ensures !(c.values[k].identity == i && c.values[k].IsCandidate())
    {
      assert !OptsIn(c, i)(k);
    }
  }

  // ---------------------------------------------------------------------------------------------
  // Snapshots
  // ---------------------------------------------------------------------------------------------

  /** A test that says which values sight an application. */
  ghost predicate TellsSightings(seen: nat -> bool, tracked: map<string, Uuid>, c: Cycle, app: Uuid) {
    forall k: nat | k < |c.values| :: seen(k) <==> SightedAt(c, tracked, k, app)
  }

  lemma SightsTellsSightings(c: Cycle, catalog: map<Uuid, CatalogEntry>, app: Uuid)
    requires Unambiguous(catalog)
    ensures TellsSightings(Sights(c, catalog, app), Tracked(catalog), c, app)
  {
    forall k: nat | k < |c.values|
      ensures Sights(c, catalog, app)(k) <==> SightedAt(c, Tracked(catalog), k, app)
    {
      SightsIsSighted(c, catalog, app, k);
    }
  }

  /** One more value: the row it sights is written, any other row stays. */
  lemma OneSnapshotMore(m: map<Uuid, Snapshot>, tracked: map<string, Uuid>, c: Cycle, n: nat, app: Uuid)
    requires n < |c.values|
    ensures var before := SnapshotsAfter(m, tracked, c, n);
            var after := SnapshotsAfter(m, tracked, c, n + 1);
            if SightedAt(c, tracked, n, app)
            then && app in after
                 && after[app] == Snapshot(
                      Columns(c.values[n]), IsOptedIn(c.values[n]), c.observedAt, None, c.token,
                      (if app in before then before[app].version else 0) + 1)
            else (app in after <==> app in before) && (app in after ==> after[app] == before[app])
  {
  }

  lemma {:induction false} SnapshotVersion(m: map<Uuid, Snapshot>, tracked: map<string, Uuid>, c: Cycle, n: nat,
      app: Uuid, seen: nat -> bool)
    requires n <= |c.values| && TellsSightings(seen, tracked, c, app)
    ensures var after := SnapshotsAfter(m, tracked, c, n);
            && (app in after <==> app in m || Count(n, seen) > 0)
            && (app in after ==> after[app].version == (if app in m then m[app].version else 0) + Count(n, seen))
  {
    if n > 0 {
      OneSnapshotMore(m, tracked, c, n - 1, app);
      SnapshotVersion(m, tracked, c, n - 1, app, seen);
    }
  }

  lemma {:induction false} SnapshotAfterValues(m: map<Uuid, Snapshot>, tracked: map<string, Uuid>, c: Cycle, n: nat,
      k: nat, app: Uuid, seen: nat -> bool)
    requires n <= |c.values| && TellsSightings(seen, tracked, c, app) && LastOf(seen, n, k)
    ensures var after := SnapshotsAfter(m, tracked, c, n);
            && app in after
            && after[app] == Snapshot(
                 Columns(c.values[k]), IsOptedIn(c.values[k]), c.observedAt, None, c.token,
                 (if app in m then m[app].version else 0) + Count(n, seen))
  {
    OneSnapshotMore(m, tracked, c, n - 1, app);
    if k < n - 1 {
      SnapshotAfterValues(m, tracked, c, n - 1, k, app, seen);
      assert !seen(n - 1);
    } else {
      SnapshotVersion(m, tracked, c, n - 1, app, seen);
    }
  }

  /** The snapshot row of an active application after a cycle whose list shows it, last at index k. */
  lemma SightedSnapshotRow(t: Tables, c: Cycle, app: Uuid, k: nat)
    requires Unambiguous(t.catalog) && LastOf(Sights(c, t.catalog, app), |c.values|, k)
    ensures var after := ReconcileOn(t, c).snapshots;
            && app in after
            && after[app] == Snapshot(
                 Columns(c.values[k]), IsOptedIn(c.values[k]), c.observedAt, None, c.token,
                 (if app in t.snapshots then t.snapshots[app].version else 0)
                 + Count(|c.values|, Sights(c, t.catalog, app)))
  {
    SightsTellsSightings(c, t.catalog, app);
    SnapshotAfterValues(t.snapshots, Tracked(t.catalog), c, |c.values|, k, app, Sights(c, t.catalog, app));
  }

  /** After a cycle whose list does not show it: a current row is marked missing, any other is untouched. */
  lemma UnsightedSnapshotRow(t: Tables, c: Cycle, app: Uuid)
    requires Unambiguous(t.catalog) && NewToken(t, c.token) && forall k: nat :: !Sights(c, t.catalog, app)(k)
    ensures var after := ReconcileOn(t, c).snapshots;
            && (app in after <==> app in t.snapshots)
            && (app in after && t.snapshots[app].missingSince == None ==>
                  after[app] == t.snapshots[app].(missingSince := Some(c.observedAt),
                                                  version := t.snapshots[app].version + 1))
            && (app in after && t.snapshots[app].missingSince != None ==> after[app] == t.snapshots[app])
  {
    SnapshotsAfterValues(t.snapshots, Tracked(t.catalog), c, |c.values|, app);
    forall k: nat | k < |c.values|
      ensures !SightedAt(c, Tracked(t.catalog), k, app)
    {
      SightsIsSighted(c, t.catalog, app, k);
    }
  }

  // ---------------------------------------------------------------------------------------------
  // Drift
  // ---------------------------------------------------------------------------------------------

  /** What a current snapshot must still show of the mapping. */
  ghost predicate StillAsMapped(e: CatalogEntry, s: Snapshot) {
    && s.missingSince == None
    && "releasehub.io/managed" in s.observation.labels && s.observation.labels["releasehub.io/managed"] == "true"
    && !s.observation.automatedSync && s.observation.project == e.argoProject
    && s.observation.destination.server == e.destinationServer
    && s.observation.destination.namespace == e.destinationNamespace
    && exists x <- s.observation.sources ::
         x.repositoryUrl == e.source.repositoryUrl && x.targetRevision == e.source.targetRevision
         && x.path == e.source.path
  }

  /** A managed row of an application in the catalog stays exactly when its snapshot still shows the mapping. */
  lemma StaysManagedIff(t: Tables, c: Cycle, app: Uuid)
    requires Unambiguous(t.catalog) && app in t.db.rows && app in t.catalog && t.db.rows[app].status == Managed
    ensures var after := ReconcileOn(t, c);
            && (after.db.rows[app] == t.db.rows[app] <==>
                (app in after.snapshots && StillAsMapped(t.catalog[app], after.snapshots[app])))
            && (after.db.rows[app] != t.db.rows[app] ==>
                  && after.db.rows[app].status == ConfigurationDrift
                  && after.db.rows[app].driftDetectedAt == Some(c.observedAt)
                  && after.db.rows[app].version == t.db.rows[app].version + 1)
  {
    var after := ReconcileOn(t, c);
    DriftIsExact(t, c, app);
    if app in after.snapshots && after.snapshots[app].missingSince.None? {
      UnchangedIff(MappingOf(app, t.catalog[app]), Restored(t.catalog[app], after.snapshots[app]));
    }
  }

  // ---------------------------------------------------------------------------------------------
  // Counters
  // ---------------------------------------------------------------------------------------------

  ghost function IsLabelledValue(c: Cycle): nat -> bool {
    (n: nat) => n < |c.values| && IsOptedIn(c.values[n])
  }

  /** A labelled value whose namespace and name no candidate row had before. */
  ghost function IsNewValue(t: Tables, c: Cycle): nat -> bool {
    (n: nat) => && n < |c.values| && IsOptedIn(c.values[n])
                && forall i <- t.candidates :: i.namespace + "/" + i.name
                     != c.values[n].identity.namespace + "/" + c.values[n].identity.name
  }

  /** A value that carries the namespace and name of some active application. */
  ghost function IsTrackedValue(t: Tables, c: Cycle): nat -> bool {
    (n: nat) => n < |c.values| && exists app <- t.catalog :: Sights(c, t.catalog, app)(n)
  }

  function OneIf(b: bool): nat {
    if b then 1 else 0
  }

  /** One value more on the counters. */
  ghost predicate Adds(k: Counters, next: Counters, labelled: bool, unknown: bool, tracked: bool) {
    next == Counters(k.observed, k.candidates + OneIf(labelled), k.newCandidates + OneIf(unknown),
                     k.tracked + OneIf(tracked))
  }

  lemma {:induction false} Accumulates(after: nat -> Counters, n: nat, labelled: nat -> bool, unknown: nat -> bool,
                                       tracked: nat -> bool, total: nat)
    requires after(0) == Counters(total, 0, 0, 0)
    requires forall k: nat | k < n :: Adds(after(k), after(k + 1), labelled(k), unknown(k), tracked(k))
    ensures after(n) == Counters(total, Count(n, labelled), Count(n, unknown), Count(n, tracked))
  {
    if n > 0 {
      Accumulates(after, n - 1, labelled, unknown, tracked, total);
      assert Adds(after(n - 1), after(n), labelled(n - 1), unknown(n - 1), tracked(n - 1));
    }
  }

  ghost function CountersBy(t: Tables, c: Cycle): nat -> Counters
    requires Unambiguous(t.catalog)
  {
    (n: nat) => if n <= |c.values| then CountersAfter(t, c, n) else Counters(0, 0, 0, 0)
  }

  lemma NextCounters(t: Tables, c: Cycle, n: nat)
    requires Unambiguous(t.catalog) && n < |c.values|
    ensures Adds(CountersBy(t, c)(n), CountersBy(t, c)(n + 1), IsLabelledValue(c)(n), IsNewValue(t, c)(n),
                 IsTrackedValue(t, c)(n))
  {
    NewValueIsUnknown(t, c, n);
    TrackedValueIsTracked(t, c, n);
  }

  lemma NewValueIsUnknown(t: Tables, c: Cycle, n: nat)
    requires n < |c.values|
    ensures IsNewValue(t, c)(n)
            <==> c.values[n].IsCandidate() && !KnownKey(t.candidates, IdentityKey(c.values[n].identity))
  {
  }

  lemma TrackedValueIsTracked(t: Tables, c: Cycle, n: nat)
    requires Unambiguous(t.catalog) && n < |c.values|
    ensures IsTrackedValue(t, c)(n) <==> IdentityKey(c.values[n].identity) in Tracked(t.catalog)
  {
    var key := IdentityKey(c.values[n].identity);
    if key in Tracked(t.catalog) {
      assert Sights(c, t.catalog, Tracked(t.catalog)[key])(n);
    }
  }

  /** The counters are cardinalities: values, labelled ones, labelled ones not known before, tracked ones. */
  lemma CountersAreCardinalities(t: Tables, c: Cycle)
    requires Unambiguous(t.catalog)
    ensures var result := CountersAfter(t, c, |c.values|);
            && result.observed == |c.values|
            && result.candidates == Count(|c.values|, IsLabelledValue(c))
            && result.newCandidates == Count(|c.values|, IsNewValue(t, c))
            && result.tracked == Count(|c.values|, IsTrackedValue(t, c))
  {
    forall n: nat | n < |c.values|
      ensures Adds(CountersBy(t, c)(n), CountersBy(t, c)(n + 1), IsLabelledValue(c)(n), IsNewValue(t, c)(n),
                   IsTrackedValue(t, c)(n))
    {
      NextCounters(t, c, n);
    }
    Accumulates(CountersBy(t, c), |c.values|, IsLabelledValue(c), IsNewValue(t, c), IsTrackedValue(t, c), |c.values|);
  }
}
