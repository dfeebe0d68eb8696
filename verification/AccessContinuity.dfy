/**
 Every run of concurrent access mutations keeps an effective platform manager. Protected mutations hold the
 continuity lock from their first statement to their commit; anything else commits in between.
 */
module AccessContinuity {
  import opened Basics
  import opened Scopes
  import opened PolicyTables
  import opened PolicyDecision
  import opened AccessRepository
  import opened OidcGroups

  /** A protected transaction under way: the rows it has turned off are its own until it commits. */
  datatype Transaction =
    | Locked(op: Protected)
    | Worked(delta: Delta)
    | Counted(delta: Delta)

  datatype State = State(
    tables: Tables, organizations: set<Uuid>, mappings: Mappings, holder: Option<Transaction>)

  datatype Step =
    | Lock(op: Protected)
    | DoWork
    | Count
    | Commit
    | Abort
    | Mutate(mutation: Unprotected)
    | SyncOidc(login: Login)
    | Remap(mappings: Mappings)

  /** The effect of one step, or None where the step cannot happen. */
  ghost function Next(s: State, step: Step): Option<State> {
    match step
    case Lock(op) => if s.holder.Some? then None else Some(s.(holder := Some(Locked(op))))
    case DoWork =>
      if s.holder.None? || !s.holder.value.Locked? then None
      else
        var work := Work(s.tables, s.organizations, s.holder.value.op);
        Some(s.(holder := if work.Err? then None else Some(Worked(work.value))))
    case Count =>
      if s.holder.None? || !s.holder.value.Worked? then None
      else
        var d := s.holder.value.delta;
        Some(s.(holder := if Managers(Apply(s.tables, d), false) == {} then None else Some(Counted(d))))
    case Commit =>
      if s.holder.None? || !s.holder.value.Counted? then None
      else Some(s.(tables := Apply(s.tables, s.holder.value.delta), holder := None))
    case Abort => Some(s.(holder := None))
    case Mutate(op) =>
      var after := UnprotectedOn(s.tables, s.organizations, op);
      Some(if after.Ok? then s.(tables := after.value) else s)
    case SyncOidc(login) =>
      var after := SyncOn(s.tables, s.mappings, login);
      Some(if after.Ok? then s.(tables := after.value) else s)
    case Remap(mappings) => Some(s.(mappings := mappings))
  }

  // ---------------------------------------------------------------------------------------------
  // Growth
  // ---------------------------------------------------------------------------------------------

  /** No row a manager path rests on is turned off or rewritten; with manualOnly only manual memberships matter. */
  ghost predicate Grows(a: Tables, b: Tables, manualOnly: bool) {
    && (forall u <- a.users :: u in b.users && (b.users[u].disabled ==> a.users[u].disabled))
    && (forall g <- a.groups :: g in b.groups && (b.groups[g].disabled ==> a.groups[g].disabled))
    && (forall r <- a.roles :: r in b.roles && (a.roles[r].active ==> b.roles[r].active))
    && a.rolePermissions <= b.rolePermissions
    && MembershipsGrow(a.memberships, b.memberships, manualOnly)
    && (forall p <- a.platformBindings :: p in b.platformBindings
          && b.platformBindings[p].groupId == a.platformBindings[p].groupId
          && b.platformBindings[p].roleId == a.platformBindings[p].roleId
          && (a.platformBindings[p].active ==> b.platformBindings[p].active))
  }

  ghost predicate MembershipsGrow(a: map<Uuid, Membership>, b: map<Uuid, Membership>, manualOnly: bool) {
    forall m <- a :: (manualOnly ==> a[m].source == Manual) ==> MembershipGrows(a, b, m)
  }

  ghost predicate MembershipGrows(a: map<Uuid, Membership>, b: map<Uuid, Membership>, m: Uuid)
    requires m in a
  {
    m in b && b[m] == a[m].(active := b[m].active) && (a[m].active ==> b[m].active)
  }

  lemma ManagersGrow(a: Tables, b: Tables, manualOnly: bool)
    requires Grows(a, b, manualOnly)
    ensures Managers(a, manualOnly) <= Managers(b, manualOnly)
  {
    forall user | user in Managers(a, manualOnly)
      ensures user in Managers(b, manualOnly)
    {
      var m, p :| m in a.memberships && p in a.platformBindings && ManagerPath(a, m, p, manualOnly)
          && a.memberships[m].userId == user;
      assert MembershipGrows(a.memberships, b.memberships, m);
      assert ManagerPath(b, m, p, manualOnly);
    }
  }

  /** Turning off the same rows on both sides keeps the order. */
  lemma ApplyKeepsGrowth(a: Tables, b: Tables, d: Delta, manualOnly: bool)
    requires Grows(a, b, manualOnly)
    ensures Grows(Apply(a, d), Apply(b, d), manualOnly)
  {
    forall m | m in a.memberships && (manualOnly ==> a.memberships[m].source == Manual)
      ensures MembershipGrows(Apply(a, d).memberships, Apply(b, d).memberships, m)
    {
      assert MembershipGrows(a.memberships, b.memberships, m);
    }
  }

  /** Replacing the membership table alone. */
  lemma MembershipsAlone(t: Tables, memberships: map<Uuid, Membership>, manualOnly: bool)
    requires MembershipsGrow(t.memberships, memberships, manualOnly)
    ensures Grows(t, t.(memberships := memberships), manualOnly)
  {
  }

  lemma AddMembershipGrows(t: Tables, organizations: set<Uuid>, op: Unprotected, manualOnly: bool)
    requires op.AddMembership? && UnprotectedOn(t, organizations, op).Ok?
    ensures Grows(t, UnprotectedOn(t, organizations, op).value, manualOnly)
  {
    var after := UnprotectedOn(t, organizations, op).value;
    AddedRowGrows(t, organizations, op, manualOnly);
    MembershipsAlone(t, after.memberships, manualOnly);
  }

  lemma AddedRowGrows(t: Tables, organizations: set<Uuid>, op: Unprotected, manualOnly: bool)
    requires op.AddMembership? && UnprotectedOn(t, organizations, op).Ok?
    ensures var after := UnprotectedOn(t, organizations, op).value;
            after == t.(memberships := after.memberships)
            && MembershipsGrow(t.memberships, after.memberships, manualOnly)
  {
  }

  lemma InsertGrows(t: Tables, organizations: set<Uuid>, op: Unprotected, manualOnly: bool)
    requires (op.CreateGroup? || op.CreateRole? || op.CreateDeny? || op.RevokeDeny?) && UnprotectedOn(t, organizations,
             op).Ok?
    ensures Grows(t, UnprotectedOn(t, organizations, op).value, manualOnly)
  {
  }

  lemma BindingsGrow(t: Tables, organizations: set<Uuid>, op: Unprotected, manualOnly: bool)
    requires op.CreateBindings? && UnprotectedOn(t, organizations, op).Ok?
    ensures Grows(t, UnprotectedOn(t, organizations, op).value, manualOnly)
  {
    BindAllIffAllBindable(t, op.input, op.ids);
    BoundGrows(t, UnprotectedOn(t, organizations, op).value, op.input, op.ids, manualOnly);
  }

  /** No unprotected mutation shrinks the manager set. */
  lemma UnprotectedGrows(t: Tables, organizations: set<Uuid>, op: Unprotected, manualOnly: bool)
    requires UnprotectedOn(t, organizations, op).Ok?
    ensures Grows(t, UnprotectedOn(t, organizations, op).value, manualOnly)
  {
    if op.AddMembership? {
      AddMembershipGrows(t, organizations, op, manualOnly);
    } else if op.CreateBindings? {
      BindingsGrow(t, organizations, op, manualOnly);
    } else {
      InsertGrows(t, organizations, op, manualOnly);
    }
  }

  lemma BoundGrows(t: Tables, after: Tables, input: BindingInput, ids: seq<Uuid>, manualOnly: bool)
    requires |ids| == |input.roleIds| && Bound(t, after, input, ids, |ids|)
    ensures Grows(t, after, manualOnly)
  {
    if input.scopeKind.PlatformKind? {
      assert forall p <- t.platformBindings ::
               (p in after.platformBindings && after.platformBindings[p] == t.platformBindings[p]);
    } else {
      assert after == t.(bindings := after.bindings);
    }
  }

  /** A login's synchronization writes no manual membership. */
  lemma SyncGrows(t: Tables, mappings: Mappings, login: Login)
    requires SyncOn(t, mappings, login).Ok?
    ensures Grows(t, SyncOn(t, mappings, login).value, true)
  {
    MembershipsAlone(t, SyncOn(t, mappings, login).value.memberships, true);
  }

  // ---------------------------------------------------------------------------------------------
  // Runs
  // ---------------------------------------------------------------------------------------------

  datatype Run = Run(states: seq<State>, steps: seq<Step>)

  ghost predicate Valid(r: Run) {
    && |r.states| == |r.steps| + 1
    && r.states[0].holder == None
    && forall i: nat | i < |r.steps| :: StepAt(r, i)
  }

  ghost predicate StepAt(r: Run, i: nat)
    requires |r.states| == |r.steps| + 1 && i < |r.steps|
  {
    Next(r.states[i], r.steps[i]) == Some(r.states[i + 1])
  }

  /** The membership table's two unique indexes. */
  ghost predicate UniqueRows(t: Tables) {
    OneManualMembership(t) && OneOidcMembership(t)
  }

  /** Rows that stay what they are, but for being on or off, stay unique. */
  lemma SwitchingKeepsUnique(t: Tables, after: Tables)
    requires UniqueRows(t) && after.memberships.Keys == t.memberships.Keys
    requires forall m <- t.memberships ::
               after.memberships[m] == t.memberships[m].(active := after.memberships[m].active)
    ensures UniqueRows(after)
  {
    forall m, n | m in t.memberships && n in t.memberships
      ensures SameKey(after.memberships[m], after.memberships[n]) ==> m == n
      ensures after.memberships[n].source == Manual
              && IsManualMembership(after, m, after.memberships[n].groupId, after.memberships[n].userId)
              ==> m == n
    {
      assert SameKey(after.memberships[m], after.memberships[n])
             <==> SameKey(t.memberships[m], t.memberships[n]);
      assert IsManualMembership(after, m, after.memberships[n].groupId, after.memberships[n].userId)
             <==> IsManualMembership(t, m, t.memberships[n].groupId, t.memberships[n].userId);
    }
  }

  lemma AddingKeepsUnique(t: Tables, organizations: set<Uuid>, op: Unprotected)
    requires UniqueRows(t) && op.AddMembership? && UnprotectedOn(t, organizations, op).Ok?
    ensures UniqueRows(UnprotectedOn(t, organizations, op).value)
  {
    if m :| IsManualMembership(t, m, op.groupId, op.userId) {
      SwitchingKeepsUnique(t, UnprotectedOn(t, organizations, op).value);
    } else {
      NewManualMembership(t, op.id, op.groupId, op.userId);
      ManualRowKeepsOidc(t, op.id, Membership(op.groupId, op.userId, Manual, None, true));
    }
  }

  lemma ManualRowKeepsOidc(t: Tables, id: Uuid, row: Membership)
    requires OneOidcMembership(t) && id !in t.memberships && row.source == Manual
    ensures OneOidcMembership(t.(memberships := t.memberships[id := row]))
  {
    var after := t.(memberships := t.memberships[id := row]);
    forall m, n | m in after.memberships && n in after.memberships
      && SameKey(after.memberships[m], after.memberships[n])
      ensures m == n
    {
      assert m in t.memberships && n in t.memberships && SameKey(t.memberships[m], t.memberships[n]);
    }
  }

  lemma BindingsLeaveMemberships(t: Tables, organizations: set<Uuid>, op: Unprotected)
    requires op.CreateBindings? && UnprotectedOn(t, organizations, op).Ok?
    ensures UnprotectedOn(t, organizations, op).value.memberships == t.memberships
  {
    BindAllIffAllBindable(t, op.input, op.ids);
  }

  lemma MutationKeepsUnique(t: Tables, organizations: set<Uuid>, op: Unprotected)
    requires UniqueRows(t) && UnprotectedOn(t, organizations, op).Ok?
    ensures UniqueRows(UnprotectedOn(t, organizations, op).value)
  {
    if op.AddMembership? {
      AddingKeepsUnique(t, organizations, op);
    } else {
      if op.CreateBindings? {
        BindingsLeaveMemberships(t, organizations, op);
      }
      SwitchingKeepsUnique(t, UnprotectedOn(t, organizations, op).value);
    }
  }

  lemma LoginKeepsUnique(t: Tables, mappings: Mappings, login: Login)
    requires UniqueRows(t) && SyncOn(t, mappings, login).Ok?
    ensures UniqueRows(SyncOn(t, mappings, login).value)
  {
    SyncKeepsOneRow(t, mappings, login);
    var after := SyncOn(t, mappings, login).value;
    forall m, n | m in after.memberships && n in after.memberships && after.memberships[n].source == Manual
      ensures IsManualMembership(after, m, after.memberships[n].groupId, after.memberships[n].userId) ==> m == n
    {
      RowAfterSync(t, login, Targets(t, mappings, login), m);
      RowAfterSync(t, login, Targets(t, mappings, login), n);
      if m in t.memberships && n in t.memberships {
        assert IsManualMembership(after, m, after.memberships[n].groupId, after.memberships[n].userId)
               <==> IsManualMembership(t, m, t.memberships[n].groupId, t.memberships[n].userId);
      }
    }
  }

  lemma StepKeepsUnique(s: State, step: Step, n: State)
    requires Next(s, step) == Some(n) && UniqueRows(s.tables)
    ensures UniqueRows(n.tables)
  {
    match step
    case Commit => SwitchingKeepsUnique(s.tables, n.tables);
    case Mutate(op) =>
      if UnprotectedOn(s.tables, s.organizations, op).Ok? {
        MutationKeepsUnique(s.tables, s.organizations, op);
      }
    case SyncOidc(login) =>
      if SyncOn(s.tables, s.mappings, login).Ok? {
        LoginKeepsUnique(s.tables, s.mappings, login);
      }
    case _ =>
  }

  /** In every run a user has at most one manual row in a group and at most one of each issuer. */
  lemma {:induction false} RowsStayUnique(r: Run, i: nat)
    requires Valid(r) && i < |r.states| && UniqueRows(r.states[0].tables)
    ensures UniqueRows(r.states[i].tables)
  {
    if i > 0 {
      RowsStayUnique(r, i - 1);
      assert StepAt(r, i - 1);
      StepKeepsUnique(r.states[i - 1], r.steps[i - 1], r.states[i]);
    }
  }

  /** Groups with a platform binding hold manual memberships only. */
  ghost predicate ManualOnPlatform(t: Tables) {
    forall m, b | m in t.memberships && b in t.platformBindings
        && t.memberships[m].groupId == t.platformBindings[b].groupId ::
      t.memberships[m].source == Manual
  }

  /**
   What the count has to see. Without OIDC synchronization it counts what it must keep; with it, platform-bound
   groups must hold manual memberships only.
   */
  ghost predicate Accountable(r: Run, manualOnly: bool) {
    if manualOnly then forall s <- r.states :: ManualOnPlatform(s.tables)
    else forall step <- r.steps :: !step.SyncOidc?
  }

  lemma CountSeesManualManagers(t: Tables, d: Delta)
    requires ManualOnPlatform(t)
    ensures Managers(Apply(t, d), true) == Managers(Apply(t, d), false)
  {
    var after := Apply(t, d);
    forall user | user in Managers(after, false)
      ensures user in Managers(after, true)
    {
      var m, b :| m in after.memberships && b in after.platformBindings && ManagerPath(after, m, b, false)
          && after.memberships[m].userId == user;
      assert t.memberships[m].groupId == t.platformBindings[b].groupId;
      assert ManagerPath(after, m, b, true);
    }
  }

  /** A manager is left now, and will be left if the counted transaction commits. */
  ghost predicate Continuous(s: State, manualOnly: bool) {
    && Managers(s.tables, manualOnly) != {}
    && (s.holder.Some? && s.holder.value.Counted? ==> Managers(Apply(s.tables, s.holder.value.delta), manualOnly) != {})
  }

  lemma GrowthKeepsContinuity(s: State, tables: Tables, manualOnly: bool)
    requires Continuous(s, manualOnly) && Grows(s.tables, tables, manualOnly)
    ensures Continuous(s.(tables := tables), manualOnly)
  {
    ManagersGrow(s.tables, tables, manualOnly);
    if s.holder.Some? && s.holder.value.Counted? {
      ApplyKeepsGrowth(s.tables, tables, s.holder.value.delta, manualOnly);
      ManagersGrow(Apply(s.tables, s.holder.value.delta), Apply(tables, s.holder.value.delta), manualOnly);
    }
  }

  lemma StepKeepsContinuity(s: State, step: Step, n: State, manualOnly: bool)
    requires Next(s, step) == Some(n) && Continuous(s, manualOnly)
    requires if manualOnly then step.Count? ==> ManualOnPlatform(s.tables) else !step.SyncOidc?
    ensures Continuous(n, manualOnly)
  {
    match step
    case Mutate(op) =>
      if UnprotectedOn(s.tables, s.organizations, op).Ok? {
        UnprotectedGrows(s.tables, s.organizations, op, manualOnly);
        GrowthKeepsContinuity(s, n.tables, manualOnly);
      }
    case SyncOidc(login) =>
      if SyncOn(s.tables, s.mappings, login).Ok? {
        SyncGrows(s.tables, s.mappings, login);
        GrowthKeepsContinuity(s, n.tables, manualOnly);
      }
    case Count =>
      if manualOnly {
        CountSeesManualManagers(s.tables, s.holder.value.delta);
      }
    case _ =>
  }

  /**
   In every run that starts with a manager, every state has one: of the managers counted with any source when no
   synchronization is in the run, of the manual ones when platform-bound groups hold manual memberships only.
   */
  lemma {:induction false} ManagersNeverVanish(r: Run, i: nat, manualOnly: bool)
    requires Valid(r) && i < |r.states| && Accountable(r, manualOnly)
    requires Managers(r.states[0].tables, manualOnly) != {}
    ensures Continuous(r.states[i], manualOnly)
  {
    if i > 0 {
      ManagersNeverVanish(r, i - 1, manualOnly);
      assert StepAt(r, i - 1);
      StepKeepsContinuity(r.states[i - 1], r.steps[i - 1], r.states[i], manualOnly);
    }
  }

  // ---------------------------------------------------------------------------------------------
  // Synchronization against the count that ignores the source
  // ---------------------------------------------------------------------------------------------

  /** A path spared by the rows turned off, and not among the issuer's rows of the user or through a target group. */
  ghost predicate KeptPath(t: Tables, d: Delta, mappings: Mappings, login: Login, m: Uuid, b: Uuid) {
    && ManagerPath(Apply(t, d), m, b, false)
    && (IsMine(t, login, m) ==> t.memberships[m].groupId in Targets(t, mappings, login))
  }

  /** The rows that will hold the user's membership in a target: those there are, or the one to be inserted. */
  ghost predicate WillHold(t: Tables, login: Login, g: Uuid, m: Uuid) {
    if HasRow(t, login, g) then IsMine(t, login, m) && t.memberships[m].groupId == g
    else g in login.ids && m == login.ids[g]
  }

  /** The login makes its enabled user a manager: a target group still enabled is bound to a live managing role. */
  ghost predicate JoinedPath(t: Tables, d: Delta, mappings: Mappings, login: Login, m: Uuid, b: Uuid) {
    var left := Apply(t, d);
    && login.user in left.users && !left.users[login.user].disabled
    && b in left.platformBindings && left.platformBindings[b].active
    && LiveRole(left, left.platformBindings[b].roleId, MANAGE)
    && var g := left.platformBindings[b].groupId;
       && g in Targets(t, mappings, login) && !left.groups[g].disabled
       && WillHold(t, login, g, m) && m !in d.memberships
  }

  /** Over the tables before a login, less the rows a transaction turns off: some path is kept or joined. */
  ghost predicate LoginSpares(t: Tables, d: Delta, mappings: Mappings, login: Login) {
    || (exists m, b :: KeptPath(t, d, mappings, login, m, b))
    || (exists m, b :: JoinedPath(t, d, mappings, login, m, b))
  }

  // Where a membership row after a login comes from: it was there, it was inserted, or it is not there at all.

  lemma StoredRowAfterLogin(t: Tables, mappings: Mappings, login: Login, m: Uuid)
    requires SyncOn(t, mappings, login).Ok? && m in t.memberships
    ensures var after := SyncOn(t, mappings, login).value.memberships;
            var row := t.memberships[m];
            && m in after
            && after[m] == if IsMine(t, login, m) then row.(active := row.groupId in Targets(t, mappings, login))
                           else row
    ensures forall g <- Targets(t, mappings, login) ::
              WillHold(t, login, g, m) <==> IsMine(t, login, m) && t.memberships[m].groupId == g
  {
  }

  lemma NewRowAfterLogin(t: Tables, mappings: Mappings, login: Login, m: Uuid) returns (g: Uuid)
    requires SyncOn(t, mappings, login).Ok? && m !in t.memberships
    requires m in SyncOn(t, mappings, login).value.memberships
    ensures SyncOn(t, mappings, login).value.memberships[m] == NewRow(login, g)
    ensures forall h <- Targets(t, mappings, login) :: WillHold(t, login, h, m) <==> h == g
    ensures g in Targets(t, mappings, login)
  {
    var groups := Targets(t, mappings, login);
    g :| g in groups && !HasRow(t, login, g) && login.ids[g] == m;
  }

  lemma NoRowAfterLogin(t: Tables, mappings: Mappings, login: Login, m: Uuid)
    requires SyncOn(t, mappings, login).Ok? && m !in SyncOn(t, mappings, login).value.memberships
    ensures forall g <- Targets(t, mappings, login) :: !WillHold(t, login, g, m)
  {
    forall g | g in Targets(t, mappings, login)
      ensures !WillHold(t, login, g, m)
    {
      if !HasRow(t, login, g) {
        assert login.ids[g] in Inserted(t, login, Targets(t, mappings, login));
      }
    }
  }

  /** What a manager path after a login needs of its membership row, whatever else it needs. */
  ghost predicate PathWithRow(left: Tables, row: Membership, b: Uuid) {
    && row.active
    && row.groupId in left.groups && !left.groups[row.groupId].disabled
    && row.userId in left.users && !left.users[row.userId].disabled
    && b in left.platformBindings && left.platformBindings[b].active
    && left.platformBindings[b].groupId == row.groupId
    && LiveRole(left, left.platformBindings[b].roleId, MANAGE)
  }

  /** A login changes memberships only, so the rest of a path is that of the tables before it. */
  lemma PathNeedsRow(t: Tables, d: Delta, memberships: map<Uuid, Membership>, m: Uuid, b: Uuid)
    ensures ManagerPath(Apply(t.(memberships := memberships), d), m, b, false)
            <==> m in memberships && m !in d.memberships && PathWithRow(Apply(t, d), memberships[m], b)
  {
  }

  lemma PathsWithRow(t: Tables, d: Delta, mappings: Mappings, login: Login, m: Uuid, b: Uuid)
    ensures KeptPath(t, d, mappings, login, m, b) <==>
            (m in t.memberships && m !in d.memberships && PathWithRow(Apply(t, d), t.memberships[m], b)
             && (IsMine(t, login, m) ==> t.memberships[m].groupId in Targets(t, mappings, login)))
    ensures JoinedPath(t, d, mappings, login, m, b) <==>
            (exists g :: g in Targets(t, mappings, login) && WillHold(t, login, g, m) && m !in d.memberships
                         && PathWithRow(Apply(t, d), NewRow(login, g), b))
  {
    if JoinedPath(t, d, mappings, login, m, b) {
      assert PathWithRow(Apply(t, d), NewRow(login, Apply(t, d).platformBindings[b].groupId), b);
    }
  }

  /** Every manager path after a login was kept by it or made by it. */
  lemma PathAfterLogin(t: Tables, d: Delta, mappings: Mappings, login: Login, m: Uuid, b: Uuid)
    requires SyncOn(t, mappings, login).Ok?
    ensures ManagerPath(Apply(SyncOn(t, mappings, login).value, d), m, b, false)
            <==> KeptPath(t, d, mappings, login, m, b) || JoinedPath(t, d, mappings, login, m, b)
  {
    PathNeedsRow(t, d, SyncOn(t, mappings, login).value.memberships, m, b);
    PathsWithRow(t, d, mappings, login, m, b);
    if m in t.memberships {
      StoredRowAfterLogin(t, mappings, login, m);
    } else if m in SyncOn(t, mappings, login).value.memberships {
      var g := NewRowAfterLogin(t, mappings, login, m);
    } else {
      NoRowAfterLogin(t, mappings, login, m);
    }
  }

  /** Before a login that stores its rows one can tell whether a counted manager will be left after it. */
  lemma LoginKeepsManagersIff(t: Tables, d: Delta, mappings: Mappings, login: Login)
    requires SyncOn(t, mappings, login).Ok?
    ensures Managers(Apply(SyncOn(t, mappings, login).value, d), false) != {} <==> LoginSpares(t, d, mappings, login)
  {
    var after := Apply(SyncOn(t, mappings, login).value, d);
    if user :| user in Managers(after, false) {
      var m, b :| m in after.memberships && b in after.platformBindings && ManagerPath(after, m, b, false);
      PathAfterLogin(t, d, mappings, login, m, b);
    }
    if LoginSpares(t, d, mappings, login) {
      var m, b :| KeptPath(t, d, mappings, login, m, b) || JoinedPath(t, d, mappings, login, m, b);
      PathAfterLogin(t, d, mappings, login, m, b);
      PathGivesManager(after, m, b);
    }
  }

  lemma PathGivesManager(t: Tables, m: Uuid, b: Uuid)
    requires ManagerPath(t, m, b, false)
    ensures t.memberships[m].userId in Managers(t, false)
  {
  }

  lemma NothingTurnedOff(t: Tables)
    ensures Apply(t, NO_ROWS) == t
  {
    SameTables(Apply(t, NO_ROWS), t);
  }

  /** A login that stores anything leaves a counted manager, in the tables and in a counted transaction. */
  ghost predicate SyncSpares(s: State, login: Login) {
    CanStore(s.tables, login, Targets(s.tables, s.mappings, login)) ==>
      && LoginSpares(s.tables, NO_ROWS, s.mappings, login)
      && (s.holder.Some? && s.holder.value.Counted? ==>
            LoginSpares(s.tables, s.holder.value.delta, s.mappings, login))
  }

  lemma SyncKeepsCountIff(s: State, login: Login)
    requires SyncOn(s.tables, s.mappings, login).Ok?
    ensures Continuous(s.(tables := SyncOn(s.tables, s.mappings, login).value), false) <==> SyncSpares(s, login)
  {
    NothingTurnedOff(SyncOn(s.tables, s.mappings, login).value);
    LoginKeepsManagersIff(s.tables, NO_ROWS, s.mappings, login);
    if s.holder.Some? && s.holder.value.Counted? {
      LoginKeepsManagersIff(s.tables, s.holder.value.delta, s.mappings, login);
    }
  }

  ghost predicate SyncSparesAt(r: Run, k: nat)
    requires k < |r.steps| && k < |r.states|
  {
    r.steps[k].SyncOidc? ==> SyncSpares(r.states[k], r.steps[k].login)
  }

  lemma CountKeptAtStep(r: Run, k: nat)
    requires Valid(r) && k < |r.steps| && Continuous(r.states[k], false)
    ensures Continuous(r.states[k + 1], false) <==> SyncSparesAt(r, k)
  {
    assert StepAt(r, k);
    if r.steps[k].SyncOidc? {
      var s, login := r.states[k], r.steps[k].login;
      if SyncOn(s.tables, s.mappings, login).Ok? {
        SyncKeepsCountIff(s, login);
      }
    } else {
      StepKeepsContinuity(r.states[k], r.steps[k], r.states[k + 1], false);
    }
  }

  lemma {:induction false} CountKeptWhileSpared(r: Run, i: nat)
    requires Valid(r) && i < |r.states| && Managers(r.states[0].tables, false) != {}
    requires forall k: nat | k < i :: SyncSparesAt(r, k)
    ensures Continuous(r.states[i], false)
  {
    if i > 0 {
      CountKeptWhileSpared(r, i - 1);
      CountKeptAtStep(r, i - 1);
    }
  }

  /**
   With logins in the run, counted managers of any source never vanish exactly when for every login some manager path
   is not among the issuer's rows of its user or leads through a target group, or its user becomes a manager by one.
   */
  lemma CountedManagersStayIff(r: Run)
    requires Valid(r) && Managers(r.states[0].tables, false) != {}
    ensures (forall i: nat | i < |r.states| :: Continuous(r.states[i], false))
            <==> forall k: nat | k < |r.steps| :: SyncSparesAt(r, k)
  {
    if forall i: nat | i < |r.states| :: Continuous(r.states[i], false) {
      forall k: nat | k < |r.steps|
        ensures SyncSparesAt(r, k)
      {
        assert Continuous(r.states[k], false) && Continuous(r.states[k + 1], false);
        CountKeptAtStep(r, k);
      }
    }
    if forall k: nat | k < |r.steps| :: SyncSparesAt(r, k) {
      forall i: nat | i < |r.states|
        ensures Continuous(r.states[i], false)
      {
        CountKeptWhileSpared(r, i);
      }
    }
  }

  /** Only an OIDC member is left in the managing group. */
  const OIDC_ONLY: Tables := MIXED.(memberships := map[6 := Membership(3, 2, Oidc, Some("issuer"), true)])

  /** The member comes back without any provider group. */
  const DROPPED: Login := Login(2, "issuer", [], map[])

  /** One login that drops the provider group takes the last counted manager away: the claim for every run is false. */
  lemma SyncCanRemoveTheLastCounted()
    ensures var s := State(OIDC_ONLY, {}, map[("issuer", "administrators") := Mapping(3, true)], None);
            exists n ::
              && Valid(Run([s, n], [SyncOidc(DROPPED)]))
              && Managers(s.tables, false) != {} && Managers(n.tables, false) == {}
  {
    var s := State(OIDC_ONLY, {}, map[("issuer", "administrators") := Mapping(3, true)], None);
    assert Targets(s.tables, s.mappings, DROPPED) == {};
    NothingJoined(s.tables, DROPPED);
    var n := s.(tables := SyncOn(s.tables, s.mappings, DROPPED).value);
    assert ManagerPath(OIDC_ONLY, 6, 7, false);
    assert 2 in Managers(s.tables, false);
    assert Next(s, SyncOidc(DROPPED)) == Some(n);
    assert StepAt(Run([s, n], [SyncOidc(DROPPED)]), 0);
    forall m, b
      ensures !ManagerPath(n.tables, m, b, false)
    {
      assert n.tables.memberships.Keys == {6};
    }
    assert Valid(Run([s, n], [SyncOidc(DROPPED)]));
  }

  // ---------------------------------------------------------------------------------------------
  // What a protected mutation takes away
  // ---------------------------------------------------------------------------------------------

  /** A membership row that a transaction leaves live. */
  ghost predicate Spared(t: Tables, d: Delta, m: Uuid)
    requires m in t.memberships
  {
    m !in d.memberships && t.memberships[m].groupId !in d.groups && t.memberships[m].userId !in d.users
  }

  /** Turning rows off takes away exactly the grants and denies that rest on one of them. */
  lemma ExactlyTheseGrantsGo(t: Tables, d: Delta, m: Uuid, row: Uuid, permission: string)
    ensures PlatformGrant(Apply(t, d), m, row, permission) <==>
            (PlatformGrant(t, m, row, permission) && Spared(t, d, m)
             && row !in d.platformBindings && t.platformBindings[row].roleId !in d.roles)
    ensures ScopedGrant(Apply(t, d), m, row, permission) <==>
            (ScopedGrant(t, m, row, permission) && Spared(t, d, m)
             && row !in d.bindings && t.bindings[row].roleId !in d.roles)
    ensures DenyGrant(Apply(t, d), m, row) <==> DenyGrant(t, m, row) && Spared(t, d, m) && row !in d.denies
  {
  }

  /** Disabling a group takes away every grant and deny of its members through it, and none of another group. */
  lemma DisabledGroupGivesNothing(t: Tables, organizations: set<Uuid>, group: Uuid, m: Uuid, row: Uuid,
      permission: string)
    requires GuardedOn(t, organizations, DisableGroup(group)).Ok? && m in t.memberships
    ensures var after := GuardedOn(t, organizations, DisableGroup(group)).value;
            if t.memberships[m].groupId == group
            then !PlatformGrant(after, m, row, permission) && !ScopedGrant(after, m, row, permission)
                && !DenyGrant(after, m, row)
            else
              && (PlatformGrant(after, m, row, permission) <==> PlatformGrant(t, m, row, permission))
              && (ScopedGrant(after, m, row, permission) <==> ScopedGrant(t, m, row, permission))
              && (DenyGrant(after, m, row) <==> DenyGrant(t, m, row))
  {
    ExactlyTheseGrantsGo(t, GroupDelta(t, group), m, row, permission);
  }

  /** After a disabled group no binding or deny of it is active. */
  lemma DisabledGroupHasNoPolicies(t: Tables, organizations: set<Uuid>, group: Uuid)
    requires GuardedOn(t, organizations, DisableGroup(group)).Ok?
    ensures var after := GuardedOn(t, organizations, DisableGroup(group)).value;
            && (forall b <- after.bindings :: after.bindings[b].groupId == group ==> !after.bindings[b].active)
            && (forall b <- after.platformBindings | after.platformBindings[b].groupId == group ::
                  !after.platformBindings[b].active)
            && (forall x <- after.denies :: after.denies[x].groupId == group ==> !after.denies[x].active)
            && group in after.groups && after.groups[group].disabled
  {
  }

  // ---------------------------------------------------------------------------------------------
  // Agreement with the policy engine
  // ---------------------------------------------------------------------------------------------

  ghost predicate EngineManager(t: Tables, user: Uuid) {
    Allowed(EffectivePolicy(t), Principal(user, false), MANAGE, PLATFORM_SCOPE)
  }

  /** No deny reaches the platform scope, so the engine's platform managers are the manual ones. */
  lemma EngineManagersAreManual(t: Tables, user: Uuid)
    requires user != NIL_UUID
    ensures EngineManager(t, user) <==> user in Managers(t, true)
  {
    DecisionFromTables(t, Principal(user, false), MANAGE, PLATFORM_SCOPE);
    assert |PLATFORM_SCOPE.Tenant()| == 8;
    forall m, d
      ensures !DenyCovers(t, m, d, user, MANAGE, PLATFORM_SCOPE)
    {
    }
    forall m, b
      ensures !GrantCovers(t, m, b, user, MANAGE, PLATFORM_SCOPE)
    {
    }
    if m, b :| PlatformGrantCovers(t, m, b, user, MANAGE, PLATFORM_SCOPE) {
      assert ManagerPath(t, m, b, true);
    }
    if user in Managers(t, true) {
      var m, b :| m in t.memberships && b in t.platformBindings && ManagerPath(t, m, b, true)
          && t.memberships[m].userId == user;
      assert PlatformGrantCovers(t, m, b, user, MANAGE, PLATFORM_SCOPE);
    }
  }

  /**
   With manual memberships in platform-bound groups, the engine authorizes some enabled user for platform
   management in every state of every run, OIDC synchronization included.
   */
  lemma EngineAlwaysHasManager(r: Run, i: nat)
    requires Valid(r) && i < |r.states| && Accountable(r, true)
    requires Managers(r.states[0].tables, true) != {}
    requires NIL_UUID !in r.states[i].tables.users
    ensures exists user <- r.states[i].tables.users ::
              (!r.states[i].tables.users[user].disabled && EngineManager(r.states[i].tables, user))
  {
    ManagersNeverVanish(r, i, true);
    var t := r.states[i].tables;
    var user :| user in Managers(t, true);
    EngineManagersAreManual(t, user);
  }

  /** The engine has a manager exactly when some counted path is manual. */
  lemma EngineManagerIffManualPath(t: Tables)
    requires NIL_UUID !in t.users
    ensures (exists user: Uuid :: user != NIL_UUID && EngineManager(t, user))
            <==> exists m, b :: ManagerPath(t, m, b, false) && t.memberships[m].source == Manual
  {
    if user: Uuid :| user != NIL_UUID && EngineManager(t, user) {
      EngineManagersAreManual(t, user);
      var m, b :| m in t.memberships && b in t.platformBindings && ManagerPath(t, m, b, true);
      assert ManagerPath(t, m, b, false);
    }
    if m, b :| ManagerPath(t, m, b, false) && t.memberships[m].source == Manual {
      assert ManagerPath(t, m, b, true);
      assert t.memberships[m].userId in Managers(t, true);
      EngineManagersAreManual(t, t.memberships[m].userId);
    }
  }

  /** A manual path of the tables before a mutation that none of the rows it turns off lies on. */
  ghost predicate SparedManualPath(t: Tables, d: Delta, m: Uuid, b: Uuid) {
    && ManagerPath(t, m, b, true) && Spared(t, d, m)
    && b !in d.platformBindings && t.platformBindings[b].roleId !in d.roles
  }

  lemma PathAfterApply(t: Tables, d: Delta, m: Uuid, b: Uuid)
    ensures ManagerPath(Apply(t, d), m, b, true) <==> SparedManualPath(t, d, m, b)
  {
    ExactlyTheseGrantsGo(t, d, m, b, MANAGE);
  }

  /**
   Over the tables before the call: a guarded mutation leaves an engine manager exactly when some manual path
   uses none of the rows it is about to turn off.
   */
  lemma GuardKeepsEngineManagerIff(t: Tables, organizations: set<Uuid>, op: Protected)
    requires GuardedOn(t, organizations, op).Ok? && NIL_UUID !in t.users
    ensures (exists user: Uuid :: user != NIL_UUID && EngineManager(GuardedOn(t, organizations, op).value, user))
            <==> exists m, b :: SparedManualPath(t, Work(t, organizations, op).value, m, b)
  {
    var d := Work(t, organizations, op).value;
    var after := Apply(t, d);
    EngineManagerIffManualPath(after);
    if m, b :| ManagerPath(after, m, b, false) && after.memberships[m].source == Manual {
      assert ManagerPath(after, m, b, true);
      PathAfterApply(t, d, m, b);
    }
    if m, b :| SparedManualPath(t, d, m, b) {
      PathAfterApply(t, d, m, b);
      assert ManagerPath(after, m, b, false) && after.memberships[m].source == Manual;
    }
  }

  /** What the count would have to see, where it passes: a manual path the rows turned off leave alone. */
  ghost predicate CountSpares(s: State) {
    s.holder.Some? && s.holder.value.Worked? && Managers(Apply(s.tables, s.holder.value.delta), false) != {} ==>
      exists m, b :: SparedManualPath(s.tables, s.holder.value.delta, m, b)
  }

  ghost predicate CountSparesAt(r: Run, k: nat)
    requires k < |r.steps| && k < |r.states|
  {
    r.steps[k].Count? ==> CountSpares(r.states[k])
  }

  lemma SparedPathIsManager(t: Tables, d: Delta)
    ensures Managers(Apply(t, d), true) != {} <==> exists m, b :: SparedManualPath(t, d, m, b)
  {
    var after := Apply(t, d);
    if user :| user in Managers(after, true) {
      var m, b :| m in after.memberships && b in after.platformBindings && ManagerPath(after, m, b, true);
      PathAfterApply(t, d, m, b);
    }
    if m, b :| SparedManualPath(t, d, m, b) {
      PathAfterApply(t, d, m, b);
      assert after.memberships[m].userId in Managers(after, true);
    }
  }

  lemma ManualKeptAtStep(r: Run, k: nat)
    requires Valid(r) && k < |r.steps| && Continuous(r.states[k], true)
    ensures Continuous(r.states[k + 1], true) <==> CountSparesAt(r, k)
  {
    assert StepAt(r, k);
    if r.steps[k].Count? {
      SparedPathIsManager(r.states[k].tables, r.states[k].holder.value.delta);
    } else {
      StepKeepsContinuity(r.states[k], r.steps[k], r.states[k + 1], true);
    }
  }

  lemma {:induction false} ManualKeptWhileSpared(r: Run, i: nat)
    requires Valid(r) && i < |r.states| && Managers(r.states[0].tables, true) != {}
    requires forall k: nat | k < i :: CountSparesAt(r, k)
    ensures Continuous(r.states[i], true)
  {
    if i > 0 {
      ManualKeptWhileSpared(r, i - 1);
      ManualKeptAtStep(r, i - 1);
    }
  }

  /**
   The managers the engine grants never vanish from a run, nor from what a counted transaction will leave, exactly
   when every count that passes has such a path. Nothing is asked of logins or of what commits after the count.
   */
  lemma EngineManagersStayIff(r: Run)
    requires Valid(r) && Managers(r.states[0].tables, true) != {}
    ensures (forall i: nat | i < |r.states| :: Continuous(r.states[i], true))
            <==> forall k: nat | k < |r.steps| :: CountSparesAt(r, k)
  {
    if forall i: nat | i < |r.states| :: Continuous(r.states[i], true) {
      forall k: nat | k < |r.steps|
        ensures CountSparesAt(r, k)
      {
        assert Continuous(r.states[k], true) && Continuous(r.states[k + 1], true);
        ManualKeptAtStep(r, k);
      }
    }
    if forall k: nat | k < |r.steps| :: CountSparesAt(r, k) {
      forall i: nat | i < |r.states|
        ensures Continuous(r.states[i], true)
      {
        ManualKeptWhileSpared(r, i);
      }
    }
  }

  /** One manual and one OIDC member of the only group bound to the managing role, which is a viewer-only group. */
  const MIXED: Tables := Tables(
    map[1 := User("manual", false), 2 := User("oidc", false)],
    map[3 := Group(PlatformOwned, None, "administrators", None, true, false)],
    map[4 := Role(PlatformOwned, None, "administrator", None, true)],
    {(4, MANAGE)},
    map[5 := Membership(3, 1, Manual, None, true), 6 := Membership(3, 2, Oidc, Some("issuer"), true)],
    map[], map[7 := PlatformBinding(3, 4, true)], map[], map[])

  /**
   The count looks at no source: it lets the last manual manager go while an OIDC one is left, whom the
   engine does not authorize.
   */
  lemma CountCanMissTheEngine()
    ensures EngineManager(MIXED, 1)
    ensures GuardedOn(MIXED, {}, RevokeMembership(5)).Ok?
    ensures forall user: Uuid | user != NIL_UUID ::
              !EngineManager(GuardedOn(MIXED, {}, RevokeMembership(5)).value, user)
  {
    MixedHasOneManualManager();
    MixedLosesItsManualManager();
    var after := Apply(MIXED, NO_ROWS.(memberships := {5}));
    EngineManagersAreManual(MIXED, 1);
    forall user: Uuid | user != NIL_UUID
      ensures !EngineManager(after, user)
    {
      EngineManagersAreManual(after, user);
    }
  }

  lemma MixedHasOneManualManager()
    ensures 1 in Managers(MIXED, true)
  {
    assert ManagerPath(MIXED, 5, 7, true);
  }

  lemma MixedLosesItsManualManager()
    ensures GuardedOn(MIXED, {}, RevokeMembership(5)) == Ok(Apply(MIXED, NO_ROWS.(memberships := {5})))
    ensures Managers(Apply(MIXED, NO_ROWS.(memberships := {5})), true) == {}
  {
    var after := Apply(MIXED, NO_ROWS.(memberships := {5}));
    assert Work(MIXED, {}, RevokeMembership(5)) == Ok(NO_ROWS.(memberships := {5}));
    assert ManagerPath(after, 6, 7, false);
    assert 2 in Managers(after, false);
    forall m, b
      ensures !ManagerPath(after, m, b, true)
    {
      assert after.memberships.Keys == {5, 6};
    }
  }
}
