/** What one reconciliation leaves behind, and what the stored rows say after any run of reconciliations. */
module ReconciliationRuns {
  import opened Basics
  import opened ArgoDomain
  import opened OnboardingRepository
  import opened Reconciliation

  /** Among the first n values one carries this identity and the opt-in label. */
  ghost predicate Labelled(c: Cycle, n: nat, i: Identity)
    requires n <= |c.values|
  {
    exists k: nat | k < n :: c.values[k].identity == i && c.values[k].IsCandidate()
  }

  ghost predicate SightedAt(c: Cycle, tracked: map<string, Uuid>, k: nat, app: Uuid)
    requires k < |c.values|
  {
    var key := IdentityKey(c.values[k].identity);
    key in tracked && tracked[key] == app
  }

  /** Among the first n values one carries the identity of this tracked application. */
  ghost predicate Sighted(c: Cycle, tracked: map<string, Uuid>, n: nat, app: Uuid)
    requires n <= |c.values|
  {
    exists k: nat | k < n :: SightedAt(c, tracked, k, app)
  }

  /** The list carries the identity of this active application. */
  ghost predicate Observed(c: Cycle, catalog: map<Uuid, CatalogEntry>, app: Uuid) {
    app in catalog && catalog[app].active
    && exists o :: o in c.values && IdentityKey(o.identity) == IdentityKey(catalog[app].argo)
  }

  lemma SightedMeansObserved(c: Cycle, catalog: map<Uuid, CatalogEntry>, app: Uuid)
    requires Unambiguous(catalog)
    ensures Sighted(c, Tracked(catalog), |c.values|, app) <==> Observed(c, catalog, app)
  {
    if Sighted(c, Tracked(catalog), |c.values|, app) {
      var k: nat :| k < |c.values| && SightedAt(c, Tracked(catalog), k, app);
      assert c.values[k] in c.values;
    }
    if Observed(c, catalog, app) {
      var o :| o in c.values && IdentityKey(o.identity) == IdentityKey(catalog[app].argo);
      var k: nat :| k < |c.values| && c.values[k] == o;
      assert SightedAt(c, Tracked(catalog), k, app);
    }
  }

  /** The token is new: no stored row carries it. */
  ghost predicate NewToken(t: Tables, token: Uuid) {
    && (forall i <- t.candidates :: t.candidates[i].token != token)
    && (forall a <- t.snapshots :: t.snapshots[a].token != token)
  }

  /** Presence is the absence of a missing time. */
  ghost predicate PresenceMatches(t: Tables) {
    forall i <- t.candidates :: t.candidates[i].present <==> t.candidates[i].missingSince.None?
  }

  // ---------------------------------------------------------------------------------------------
  // One cycle
  // ---------------------------------------------------------------------------------------------

  lemma {:induction false} CandidatesAfterValues(m: map<Identity, Candidate>, c: Cycle, n: nat, i: Identity)
    requires n <= |c.values|
    ensures var after := CandidatesAfter(m, c, n);
            && (i in after <==> i in m || Labelled(c, n, i))
            && (Labelled(c, n, i) ==>
                  && after[i].present && after[i].missingSince == None && after[i].token == c.token
                  && after[i].lastSeenAt == c.observedAt
                  && (i in m ==> after[i].version > m[i].version)
                  && after[i].firstSeenAt == if i in m then m[i].firstSeenAt else c.observedAt)
            && (i in m && !Labelled(c, n, i) ==> after[i] == m[i])
  {
    if n > 0 {
      CandidatesAfterValues(m, c, n - 1, i);
      assert Labelled(c, n, i) <==>
             (Labelled(c, n - 1, i) || (c.values[n - 1].identity == i && c.values[n - 1].IsCandidate()));
    }
  }

  lemma {:induction false} SnapshotsAfterValues(m: map<Uuid, Snapshot>, tracked: map<string, Uuid>, c: Cycle, n: nat,
      app: Uuid)
    requires n <= |c.values|
    ensures var after := SnapshotsAfter(m, tracked, c, n);
            && (app in after <==> app in m || Sighted(c, tracked, n, app))
            && (Sighted(c, tracked, n, app) ==>
                  && after[app].missingSince == None
                  && after[app].token == c.token && after[app].lastSeenAt == c.observedAt
                  && (app in m ==> after[app].version > m[app].version))
            && (app in m && !Sighted(c, tracked, n, app) ==> after[app] == m[app])
  {
    if n > 0 {
      SnapshotsAfterValues(m, tracked, c, n - 1, app);
      assert Sighted(c, tracked, n, app) <==> Sighted(c, tracked, n - 1, app) || SightedAt(c, tracked, n - 1, app);
    }
  }

  /** The stored observation is that of the last sighting in the list. */
  lemma {:induction false} LastSightingIsStored(m: map<Uuid, Snapshot>, tracked: map<string, Uuid>, c: Cycle, n: nat,
      k: nat, app: Uuid)
    requires k < n <= |c.values| && SightedAt(c, tracked, k, app)
    requires forall j: nat | k < j < n :: !SightedAt(c, tracked, j, app)
    ensures var after := SnapshotsAfter(m, tracked, c, n);
            app in after && after[app].observation == ObservationOf(c.values[k])
  {
    if k < n - 1 {
      LastSightingIsStored(m, tracked, c, n - 1, k, app);
      assert !SightedAt(c, tracked, n - 1, app);
    }
  }

  /** One candidate row across one cycle. */
  ghost predicate CandidateStep(before: map<Identity, Candidate>, after: map<Identity, Candidate>, i: Identity,
      seen: bool, at: int) {
    && (i in after <==> i in before || seen)
    && (i in before ==> after[i] == before[i] || after[i].version > before[i].version)
    && (seen ==> after[i].missingSince == None && after[i].present && after[i].lastSeenAt == at
                 && after[i].firstSeenAt == if i in before then before[i].firstSeenAt else at)
    && (i in before && !seen ==>
          && after[i].firstSeenAt == before[i].firstSeenAt && after[i].lastSeenAt == before[i].lastSeenAt
              && !after[i].present
          && after[i].missingSince == if before[i].missingSince.None? then Some(at) else before[i].missingSince)
  }

  ghost predicate SnapshotStep(before: map<Uuid, Snapshot>, after: map<Uuid, Snapshot>, app: Uuid, seen: bool,
      at: int) {
    && (app in after <==> app in before || seen)
    && (app in before ==> after[app] == before[app] || after[app].version > before[app].version)
    && (seen ==> after[app].missingSince == None && after[app].lastSeenAt == at)
    && (app in before && !seen ==>
          && after[app].lastSeenAt == before[app].lastSeenAt
          && after[app].missingSince == if before[app].missingSince.None? then Some(at) else before[app].missingSince)
  }

  lemma CycleMovesCandidate(t: Tables, c: Cycle, i: Identity)
    requires Unambiguous(t.catalog) && NewToken(t, c.token) && PresenceMatches(t)
    ensures CandidateStep(t.candidates, ReconcileOn(t, c).candidates, i, Labelled(c, |c.values|, i), c.observedAt)
  {
    CandidatesAfterValues(t.candidates, c, |c.values|, i);
  }

  lemma CycleMovesSnapshot(t: Tables, c: Cycle, app: Uuid)
    requires Unambiguous(t.catalog) && NewToken(t, c.token)
    ensures SnapshotStep(t.snapshots, ReconcileOn(t, c).snapshots, app, Observed(c, t.catalog, app), c.observedAt)
  {
    SightedMeansObserved(c, t.catalog, app);
    SnapshotsAfterValues(t.snapshots, Tracked(t.catalog), c, |c.values|, app);
  }

  /** Present candidates are exactly the labelled identities of the list. */
  lemma PresentCandidatesAreTheLabelled(t: Tables, c: Cycle)
    requires Unambiguous(t.catalog) && NewToken(t, c.token) && PresenceMatches(t)
    ensures var after := ReconcileOn(t, c).candidates;
            forall i :: (i in after && after[i].present) <==>
                        exists o :: o in c.values && o.identity == i && o.IsCandidate()
  {
    var after := ReconcileOn(t, c).candidates;
    forall i
      ensures (i in after && after[i].present) <==> exists o :: o in c.values && o.identity == i && o.IsCandidate()
    {
      CycleMovesCandidate(t, c, i);
      if Labelled(c, |c.values|, i) {
        var k: nat :| k < |c.values| && c.values[k].identity == i && c.values[k].IsCandidate();
        assert c.values[k] in c.values;
      }
    }
  }

  /** Snapshots without a missing time are exactly those of the tracked applications in the list. */
  lemma CurrentSnapshotsAreTheObserved(t: Tables, c: Cycle)
    requires Unambiguous(t.catalog) && NewToken(t, c.token)
    ensures var after := ReconcileOn(t, c).snapshots;
            forall app :: (app in after && after[app].missingSince.None?) <==> Observed(c, t.catalog, app)
  {
    var after := ReconcileOn(t, c).snapshots;
    forall app
      ensures (app in after && after[app].missingSince.None?) <==> Observed(c, t.catalog, app)
    {
      CycleMovesSnapshot(t, c, app);
    }
  }

  /** No candidate, snapshot or onboarding row is ever removed. */
  lemma NoRowIsLost(t: Tables, c: Cycle)
    requires Unambiguous(t.catalog)
    ensures var after := ReconcileOn(t, c);
            && t.candidates.Keys <= after.candidates.Keys && t.snapshots.Keys <= after.snapshots.Keys
            && t.db.rows.Keys == after.db.rows.Keys && after.db.commands == t.db.commands && after.catalog == t.catalog
  {
    forall i | i in t.candidates
      ensures i in ReconcileOn(t, c).candidates
    {
      CandidatesAfterValues(t.candidates, c, |c.values|, i);
    }
    forall a | a in t.snapshots
      ensures a in ReconcileOn(t, c).snapshots
    {
      SnapshotsAfterValues(t.snapshots, Tracked(t.catalog), c, |c.values|, a);
    }
  }

  /**
   Drift detection is exact: a row leaves Managed exactly when its stored snapshot drifts, with those reasons;
   any other row is unchanged, and no row that is still Managed drifts.
   */
  lemma DriftIsExact(t: Tables, c: Cycle, app: Uuid)
    requires Unambiguous(t.catalog) && app in t.db.rows && app in t.catalog
    ensures var after := ReconcileOn(t, c);
            var drift := StoredDrift(after.catalog, after.snapshots, app);
            && after.db.rows[app] == Marked(t.db.rows[app], drift, c.observedAt)
            && (after.db.rows[app].status == Managed <==> t.db.rows[app].status == Managed && drift == [])
  {
    MarkDriftRow(ObservedOn(t, c), app, c.observedAt);
  }

  /** The catalog entry behind a confirmed mapping. */
  ghost predicate Maps(e: CatalogEntry, t: Target) {
    && e.argo == t.argo && e.argoProject == t.argoProject && e.destinationServer == t.destinationServer
    && e.destinationNamespace == t.destinationNamespace && e.source == t.source
  }

  /** Drift depends only on the mapping and the observed columns. */
  lemma DriftLooksAtColumns(t: Target, o: Application, e: CatalogEntry, s: Snapshot)
    requires Maps(e, t) && s.observation == ObservationOf(o)
    ensures Drift(MappingOf(t.applicationId, e), Restored(e, s), true) == Drift(t, o, true)
  {
  }

  /**
   An accepted readback survives reconciliation: when the last sighting of the application in the list shows
   what the readback showed, a Managed row stays exactly as it is.
   */
  lemma AcceptedReadbackStaysManaged(t: Tables, c: Cycle, target: Target, readback: Application, k: nat)
    requires Unambiguous(t.catalog) && NewToken(t, c.token)
    requires target.applicationId in t.catalog && t.catalog[target.applicationId].active
    requires Maps(t.catalog[target.applicationId], target)
    requires target.applicationId in t.db.rows && t.db.rows[target.applicationId].status == Managed
    requires CleanReadback(target, readback)
    requires k < |c.values| && ObservationOf(c.values[k]) == ObservationOf(readback)
             && c.values[k].identity == readback.identity
    requires forall j: nat | k < j < |c.values| :: IdentityKey(c.values[j].identity) != IdentityKey(readback.identity)
    ensures ReconcileOn(t, c).db.rows[target.applicationId] == t.db.rows[target.applicationId]
  {
    var app := target.applicationId;
    var tracked := Tracked(t.catalog);
    AcceptedReadbackIffNoDrift(target, readback);
    assert SightedAt(c, tracked, k, app);
    LastSightingIsStored(t.snapshots, tracked, c, |c.values|, k, app);
    SnapshotsAfterValues(t.snapshots, tracked, c, |c.values|, app);
    var after := ReconcileOn(t, c);
    assert after.snapshots[app].observation == ObservationOf(readback);
    DriftLooksAtColumns(target, readback, t.catalog[app], after.snapshots[app]);
    DriftIsExact(t, c, app);
  }

  // ---------------------------------------------------------------------------------------------
  // Whole runs
  // ---------------------------------------------------------------------------------------------

  /**
   A run of committed cycles from empty tables. Between cycles the catalog and the onboarding tables may
   change in any way; only the reconciler writes candidates and snapshots.
   */
  datatype Run = Run(before: seq<Tables>, cycles: seq<Cycle>)

  ghost predicate Valid(r: Run) {
    && |r.before| == |r.cycles| + 1
    && r.before[0].candidates == map[] && r.before[0].snapshots == map[]
    && (forall t <- r.before :: Unambiguous(t.catalog))
    && (forall i: nat | i < |r.cycles| :: FollowsAt(r, i))
    && TokensAreDistinct(r.cycles)
  }

  /** Cycle i is one committed reconciliation; onboarding rows and the catalog may have changed since. */
  ghost predicate FollowsAt(r: Run, i: nat)
    requires |r.before| == |r.cycles| + 1 && i < |r.cycles|
  {
    && Unambiguous(r.before[i].catalog)
    && r.before[i + 1].candidates == ReconcileOn(r.before[i], r.cycles[i]).candidates
    && r.before[i + 1].snapshots == ReconcileOn(r.before[i], r.cycles[i]).snapshots
  }

  ghost predicate TokensAreDistinct(cycles: seq<Cycle>) {
    forall i, j | 0 <= i < j < |cycles| :: cycles[i].token != cycles[j].token
  }

  ghost predicate LabelledIn(r: Run, k: nat, i: Identity)
    requires k < |r.cycles|
  {
    Labelled(r.cycles[k], |r.cycles[k].values|, i)
  }

  ghost predicate ObservedIn(r: Run, k: nat, app: Uuid)
    requires k < |r.cycles| < |r.before|
  {
    Observed(r.cycles[k], r.before[k].catalog, app)
  }

  /** Every stored token is that of one of these cycles. */
  ghost predicate TokensWithin(t: Tables, cycles: seq<Cycle>) {
    && (forall i <- t.candidates :: TokenOf(cycles, t.candidates[i].token))
    && (forall a <- t.snapshots :: TokenOf(cycles, t.snapshots[a].token))
  }

  ghost predicate TokenOf(cycles: seq<Cycle>, token: Uuid) {
    exists c :: c in cycles && c.token == token
  }

  lemma CycleKeepsTokens(t: Tables, c: Cycle, cycles: seq<Cycle>)
    requires Unambiguous(t.catalog) && PresenceMatches(t) && TokensWithin(t, cycles)
    ensures TokensWithin(ReconcileOn(t, c), cycles + [c]) && PresenceMatches(ReconcileOn(t, c))
  {
    var after := ReconcileOn(t, c);
    assert TokenOf(cycles + [c], c.token) by {
      assert c in cycles + [c];
    }
    forall i | i in after.candidates
      ensures TokenOf(cycles + [c], after.candidates[i].token) && (after.candidates[i].present
              <==> after.candidates[i].missingSince.None?)
    {
      CandidatesAfterValues(t.candidates, c, |c.values|, i);
      if after.candidates[i].token != c.token {
        var d :| d in cycles && d.token == after.candidates[i].token;
        assert d in cycles + [c];
      }
    }
    forall a | a in after.snapshots
      ensures TokenOf(cycles + [c], after.snapshots[a].token)
    {
      SnapshotsAfterValues(t.snapshots, Tracked(t.catalog), c, |c.values|, a);
      if after.snapshots[a].token != c.token {
        var d :| d in cycles && d.token == after.snapshots[a].token;
        assert d in cycles + [c];
      }
    }
  }

  lemma TokensWithinAreOld(t: Tables, cycles: seq<Cycle>, token: Uuid)
    requires TokensWithin(t, cycles) && forall c <- cycles :: c.token != token
    ensures NewToken(t, token)
  {
  }

  lemma SameRowsSameTokens(a: Tables, b: Tables, cycles: seq<Cycle>)
    requires a.candidates == b.candidates && a.snapshots == b.snapshots
    requires TokensWithin(a, cycles) && PresenceMatches(a)
    ensures TokensWithin(b, cycles) && PresenceMatches(b)
  {
  }

  lemma CycleOfRunKeepsTokens(r: Run, n: nat)
    requires |r.before| == |r.cycles| + 1 && n < |r.cycles| && FollowsAt(r, n)
    requires TokensWithin(r.before[n], r.cycles[..n]) && PresenceMatches(r.before[n])
    ensures TokensWithin(r.before[n + 1], r.cycles[..n + 1]) && PresenceMatches(r.before[n + 1])
  {
    CycleKeepsTokens(r.before[n], r.cycles[n], r.cycles[..n]);
    assert r.cycles[..n] + [r.cycles[n]] == r.cycles[..n + 1];
    SameRowsSameTokens(ReconcileOn(r.before[n], r.cycles[n]), r.before[n + 1], r.cycles[..n + 1]);
  }

  lemma {:induction false} RunKeepsTokens(r: Run, n: nat)
    requires Valid(r) && n <= |r.cycles|
    ensures TokensWithin(r.before[n], r.cycles[..n]) && PresenceMatches(r.before[n])
    ensures n < |r.cycles| ==> NewToken(r.before[n], r.cycles[n].token)
  {
    if n > 0 {
      RunKeepsTokens(r, n - 1);
      assert FollowsAt(r, n - 1);
      CycleOfRunKeepsTokens(r, n - 1);
    }
    if n < |r.cycles| {
      TokensWithinAreOld(r.before[n], r.cycles[..n], r.cycles[n].token);
    }
  }

  /** One cycle of a run, as it moves one candidate row and one snapshot row. */
  lemma RunMovesRows(r: Run, n: nat, i: Identity, app: Uuid)
    requires Valid(r) && n < |r.cycles|
    ensures CandidateStep(r.before[n].candidates, r.before[n + 1].candidates, i, LabelledIn(r, n, i),
            r.cycles[n].observedAt)
    ensures SnapshotStep(r.before[n].snapshots, r.before[n + 1].snapshots, app, ObservedIn(r, n, app),
            r.cycles[n].observedAt)
  {
    RunKeepsTokens(r, n);
    assert FollowsAt(r, n);
    CycleMovesCandidate(r.before[n], r.cycles[n], i);
    CycleMovesSnapshot(r.before[n], r.cycles[n], app);
  }

  /**
   The history of a candidate. If its identity was last labelled in cycle k, its row shows that time as the last
   sighting, and it is missing since the time of the very next cycle, or not missing when k is the last one.
   */
  lemma {:induction false} CandidateMissingSinceNextCycle(r: Run, n: nat, k: nat, i: Identity)
    requires Valid(r) && k < n <= |r.cycles|
    requires LabelledIn(r, k, i) && forall j: nat | k < j < n :: !LabelledIn(r, j, i)
    ensures i in r.before[n].candidates
    ensures r.before[n].candidates[i].lastSeenAt == r.cycles[k].observedAt
    ensures r.before[n].candidates[i].missingSince == if k == n - 1 then None else Some(r.cycles[k + 1].observedAt)
  {
    RunMovesRows(r, n - 1, i, NIL_UUID);
    if k < n - 1 {
      CandidateMissingSinceNextCycle(r, n - 1, k, i);
      assert !LabelledIn(r, n - 1, i);
    }
  }

  /** The same for snapshots; a cycle observes an application through the catalog of that moment. */
  lemma {:induction false} SnapshotMissingSinceNextCycle(r: Run, n: nat, k: nat, app: Uuid)
    requires Valid(r) && k < n <= |r.cycles|
    requires ObservedIn(r, k, app) && forall j: nat | k < j < n :: !ObservedIn(r, j, app)
    ensures app in r.before[n].snapshots
    ensures r.before[n].snapshots[app].lastSeenAt == r.cycles[k].observedAt
    ensures r.before[n].snapshots[app].missingSince == if k == n - 1 then None else Some(r.cycles[k + 1].observedAt)
  {
    RunMovesRows(r, n - 1, Identity("", ""), app);
    if k < n - 1 {
      SnapshotMissingSinceNextCycle(r, n - 1, k, app);
      assert !ObservedIn(r, n - 1, app);
    }
  }

  /** A row exists exactly for what some cycle has seen. */
  lemma {:induction false} RowsAreWhatWasSeen(r: Run, n: nat, i: Identity, app: Uuid)
    requires Valid(r) && n <= |r.cycles|
    ensures i in r.before[n].candidates <==> exists k: nat | k < n :: LabelledIn(r, k, i)
    ensures app in r.before[n].snapshots <==> exists k: nat | k < n :: ObservedIn(r, k, app)
  {
    if n > 0 {
      RowsAreWhatWasSeen(r, n - 1, i, app);
      RunMovesRows(r, n - 1, i, app);
    }
  }

  /** The time a candidate was first labelled stays on its row for good. */
  lemma {:induction false} CandidateFirstSeenIsKept(r: Run, n: nat, k: nat, i: Identity)
    requires Valid(r) && k < n <= |r.cycles|
    requires LabelledIn(r, k, i) && forall j: nat | j < k :: !LabelledIn(r, j, i)
    ensures i in r.before[n].candidates && r.before[n].candidates[i].firstSeenAt == r.cycles[k].observedAt
  {
    RunMovesRows(r, n - 1, i, NIL_UUID);
    if k < n - 1 {
      CandidateFirstSeenIsKept(r, n - 1, k, i);
    } else {
      RowsAreWhatWasSeen(r, k, i, NIL_UUID);
    }
  }
}
