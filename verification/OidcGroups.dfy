/**
 A login's group synchronization: the memberships one issuer grants a user are replaced by the groups its provider
 groups are mapped to. What that leaves of the effective platform managers is stated over the tables before it.
 */
module OidcGroups {
  import opened Basics
  import opened Scopes
  import opened PolicyTables
  import opened AccessRepository

  /** A mapping row, without its key: the issuer and the provider group. */
  datatype Mapping = Mapping(groupId: Uuid, active: bool)

  type Mappings = map<(string, string), Mapping>

  /** The inputs of one synchronization, and the identifiers drawn for rows that may have to be inserted. */
  datatype Login = Login(user: Uuid, issuer: string, providerGroups: seq<string>, ids: map<Uuid, Uuid>)

  datatype SyncError = Rejected

  /** A mapping that is in force: to an enabled group for OIDC viewers. */
  predicate InForce(t: Tables, mapping: Mapping) {
    && mapping.active && mapping.groupId in t.groups
    && t.groups[mapping.groupId].oidcViewerOnly && !t.groups[mapping.groupId].disabled
  }

  /** The groups a login is to be in. */
  function Targets(t: Tables, mappings: Mappings, login: Login): set<Uuid> {
    set p | p in login.providerGroups && (login.issuer, p) in mappings && InForce(t, mappings[(login.issuer, p)]) ::
      mappings[(login.issuer, p)].groupId
  }

  /** A row this issuer gave this user. */
  predicate IsMine(t: Tables, login: Login, m: Uuid) {
    && m in t.memberships && t.memberships[m].userId == login.user
    && t.memberships[m].source == Oidc && t.memberships[m].issuer == Some(login.issuer)
  }

  /** The groups the issuer's active rows put the user in. */
  function Current(t: Tables, login: Login): set<Uuid> {
    set m | m in t.memberships && IsMine(t, login, m) && t.memberships[m].active :: t.memberships[m].groupId
  }

  /** The table's unique index: one row an issuer, user and group. */
  ghost predicate OneOidcMembership(t: Tables) {
    forall m, n | m in t.memberships && n in t.memberships ::
      SameKey(t.memberships[m], t.memberships[n]) ==> m == n
  }

  predicate SameKey(a: Membership, b: Membership) {
    a.source == Oidc && b.source == Oidc && a.groupId == b.groupId && a.userId == b.userId && a.issuer == b.issuer
  }

  predicate HasRow(t: Tables, login: Login, g: Uuid) {
    exists m <- t.memberships :: IsMine(t, login, m) && t.memberships[m].groupId == g
  }

  /** A row for this group can be stored: one is there, or the drawn identifier and the foreign keys allow one. */
  predicate CanInsert(t: Tables, login: Login, g: Uuid) {
    HasRow(t, login, g) || (g in login.ids && login.user in t.users && login.ids[g] !in t.memberships)
  }

  /** Every group can be stored, and no two need the same new row. */
  predicate CanStore(t: Tables, login: Login, groups: set<Uuid>) {
    && (forall g <- groups :: CanInsert(t, login, g))
    && (forall g, h | g in groups && h in groups && !HasRow(t, login, g) && !HasRow(t, login, h) ::
          login.ids[g] == login.ids[h] ==> g == h)
  }

  function NewRow(login: Login, g: Uuid): Membership {
    Membership(g, login.user, Oidc, Some(login.issuer), true)
  }

  function Inserted(t: Tables, login: Login, groups: set<Uuid>): map<Uuid, Membership>
    requires CanStore(t, login, groups)
  {
    map g | g in groups && !HasRow(t, login, g) :: login.ids[g] := NewRow(login, g)
  }

  /** The rows there are: the login's own are on exactly for these groups. */
  function Switched(t: Tables, login: Login, groups: set<Uuid>): map<Uuid, Membership> {
    map m | m in t.memberships ::
      if IsMine(t, login, m) then t.memberships[m].(active := t.memberships[m].groupId in groups)
      else t.memberships[m]
  }

  /** The memberships when the login is in exactly these groups by its issuer. */
  function Synced(t: Tables, login: Login, groups: set<Uuid>): map<Uuid, Membership>
    requires CanStore(t, login, groups)
  {
    Switched(t, login, groups) + Inserted(t, login, groups)
  }

  /** The tables after a synchronization, or why it stores nothing. */
  function SyncOn(t: Tables, mappings: Mappings, login: Login): Result<Tables, SyncError> {
    var groups := Targets(t, mappings, login);
    if CanStore(t, login, groups) then Ok(t.(memberships := Synced(t, login, groups))) else Err(Rejected)
  }

  // ---------------------------------------------------------------------------------------------
  // The repository and the service
  // ---------------------------------------------------------------------------------------------

  /** A query result in ascending order: each of these identifiers once. */
  ghost predicate IsListing(list: seq<Uuid>, ids: set<Uuid>) {
    && (forall i, j | 0 <= i < j < |list| :: list[i] < list[j])
    && (forall id :: id in list <==> id in ids)
  }

  /** Ordered listings are equal exactly when they list the same. */
  lemma {:induction false} ListingsEqualIff(a: seq<Uuid>, b: seq<Uuid>, x: set<Uuid>, y: set<Uuid>)
    requires IsListing(a, x) && IsListing(b, y)
    ensures a == b <==> x == y
  {
    if x == y {
      if a != [] {
        NotEmpty(a, x);
      }
      if b != [] {
        NotEmpty(b, y);
      }
      if a != [] {
        SameLast(a, b, x);
        var last := a[|a| - 1];
        ListingWithoutLast(a, x);
        ListingWithoutLast(b, x);
        ListingsEqualIff(a[..|a| - 1], b[..|b| - 1], x - {last}, x - {last});
        assert a == a[..|a| - 1] + [last] && b == b[..|b| - 1] + [last];
      }
    }
  }

  lemma NotEmpty(a: seq<Uuid>, x: set<Uuid>)
    requires IsListing(a, x) && a != []
    ensures x != {}
  {
    assert a[0] in x;
  }

  lemma SameLast(a: seq<Uuid>, b: seq<Uuid>, x: set<Uuid>)
    requires IsListing(a, x) && IsListing(b, x) && a != []
    ensures b != [] && a[|a| - 1] == b[|b| - 1]
  {
    assert a[|a| - 1] in x;
    var i :| 0 <= i < |b| && b[i] == a[|a| - 1];
    assert b[|b| - 1] in x;
    var j :| 0 <= j < |a| && a[j] == b[|b| - 1];
  }

  lemma ListingWithoutLast(a: seq<Uuid>, x: set<Uuid>)
    requires IsListing(a, x) && a != []
    ensures IsListing(a[..|a| - 1], x - {a[|a| - 1]})
  {
    var front, last := a[..|a| - 1], a[|a| - 1];
    assert a == front + [last];
    forall id
      ensures id in front <==> id in x - {last}
    {
      if id in front {
        var i :| 0 <= i < |front| && front[i] == id;
        assert a[i] < a[|a| - 1];
      }
    }
  }

  /** The groups listed before a position. */
  function Before(list: seq<Uuid>, n: nat): set<Uuid>
    requires n <= |list|
  {
    set g | g in list[..n]
  }

  class Repository {
    var tables: Tables
    var mappings: Mappings

    constructor (tables: Tables, mappings: Mappings)
      ensures this.tables == tables && this.mappings == mappings
    {
      this.tables, this.mappings := tables, mappings;
    }

    method FindRow(login: Login, g: Uuid) returns (found: Option<Uuid>)
      ensures found.Some? ==> IsMine(tables, login, found.value) && tables.memberships[found.value].groupId == g
      ensures found.None? ==> !HasRow(tables, login, g)
    {
      var rest := tables.memberships.Keys;
      while rest != {}
        invariant forall m <- tables.memberships.Keys - rest ::
                    !(IsMine(tables, login, m) && tables.memberships[m].groupId == g)
        decreases |rest|
      {
        var m :| m in rest;
        if IsMine(tables, login, m) && tables.memberships[m].groupId == g {
          return Some(m);
        }
        rest := rest - {m};
      }
      return None;
    }

    /** Turns the row of this group on, or inserts it; false where a key forbids the insertion. */
    method Activate(login: Login, g: Uuid) returns (ok: bool)
      requires g in login.ids
      modifies this`tables
      ensures ok <==> CanInsert(old(tables), login, g)
      ensures !ok ==> tables == old(tables)
      ensures ok ==> exists m :: Activated(old(tables), tables, login, g, m)
    {
      var existing := FindRow(login, g);
      if existing.Some? {
        var row := tables.memberships[existing.value].(active := true);
        tables := tables.(memberships := tables.memberships[existing.value := row]);
        assert Activated(old(tables), tables, login, g, existing.value);
        return true;
      }
      if login.user !in tables.users || login.ids[g] in tables.memberships {
        return false;
      }
      tables := tables.(memberships := tables.memberships[login.ids[g] := NewRow(login, g)]);
      assert Activated(old(tables), tables, login, g, login.ids[g]);
      return true;
    }

    /** Activates the rows of the targets one after the other, from a table in which they are all off. */
    method ActivateAll(ghost t: Tables, login: Login, target: seq<Uuid>) returns (ok: bool)
      requires OneOidcMembership(t) && tables == t.(memberships := TurnedOff(t, login))
      requires forall i, j | 0 <= i < j < |target| :: target[i] < target[j]
      requires forall g <- target :: g in login.ids
      modifies this`tables
      ensures ok <==> CanStore(t, login, Before(target, |target|))
      ensures ok ==> tables == t.(memberships := Synced(t, login, Before(target, |target|)))
    {
      NothingJoined(t, login);
      for i := 0 to |target|
        invariant CanStore(t, login, Before(target, i))
        invariant tables == t.(memberships := Synced(t, login, Before(target, i)))
      {
        ghost var prior := tables;
        NextTarget(target, i);
        OneMoreStored(t, prior, login, Before(target, i), target[i]);
        ok := Activate(login, target[i]);
        if !ok {
          if CanStore(t, login, Before(target, |target|)) {
            StoringFewer(t, login, Before(target, i + 1), Before(target, |target|));
          }
          return false;
        }
        ghost var m :| Activated(prior, tables, login, target[i], m);
        OneMoreSynced(t, prior, tables, login, Before(target, i), target[i], m);
      }
      return true;
    }

    /**
     Replaces the issuer's memberships of the user. Nothing is written when the lists agree; otherwise every row is
     turned off and those of the targets are turned on or inserted, all or none.
     */
    method SyncOidcGroups(login: Login, target: seq<Uuid>, current: seq<Uuid>) returns (r: Option<SyncError>)
      requires OneOidcMembership(tables)
      requires IsListing(target, Targets(tables, mappings, login)) && IsListing(current, Current(tables, login))
      requires forall g <- target :: g in login.ids
      modifies this`tables
      ensures match SyncOn(old(tables), mappings, login)
              case Ok(t) => r == None && tables == t
              case Err(e) => r == Some(e) && tables == old(tables)
    {
      ListingsEqualIff(current, target, Current(tables, login), Targets(tables, mappings, login));
      AllListed(target, Targets(tables, mappings, login));
      if current == target {
        NothingToSync(tables, login);
        return None;
      }
      var savepoint := tables;
      tables := tables.(memberships := TurnedOff(tables, login));
      var ok := ActivateAll(savepoint, login, target);
      if !ok {
        tables := savepoint;
        return Some(Rejected);
      }
      return None;
    }
  }

  /** The table after the statement that turns the issuer's rows of the user off. */
  function TurnedOff(t: Tables, login: Login): map<Uuid, Membership> {
    map m | m in t.memberships ::
      if IsMine(t, login, m) then t.memberships[m].(active := false) else t.memberships[m]
  }

  lemma AllListed(list: seq<Uuid>, ids: set<Uuid>)
    requires IsListing(list, ids)
    ensures Before(list, |list|) == ids
  {
    assert list[..|list|] == list;
  }

  /** One row written: the one there was turned on, or a new one under the drawn identifier. */
  ghost predicate Activated(before: Tables, after: Tables, login: Login, g: Uuid, m: Uuid) {
    && after == before.(memberships := after.memberships)
    && if HasRow(before, login, g)
       then && IsMine(before, login, m) && before.memberships[m].groupId == g
            && after.memberships == before.memberships[m := before.memberships[m].(active := true)]
       else && g in login.ids && m == login.ids[g] && m !in before.memberships
            && after.memberships == before.memberships[m := NewRow(login, g)]
  }

  /** With one row a group, a row is active exactly when its group is a current one. */
  lemma ActiveIffCurrent(t: Tables, login: Login, m: Uuid)
    requires OneOidcMembership(t) && IsMine(t, login, m)
    ensures t.memberships[m].groupId in Current(t, login) <==> t.memberships[m].active
  {
    if t.memberships[m].groupId in Current(t, login) {
      var n :| n in t.memberships && IsMine(t, login, n) && t.memberships[n].active
        && t.memberships[n].groupId == t.memberships[m].groupId;
      assert SameKey(t.memberships[m], t.memberships[n]);
    }
  }

  lemma CurrentHaveRows(t: Tables, login: Login)
    ensures forall g <- Current(t, login) :: HasRow(t, login, g)
    ensures CanStore(t, login, Current(t, login)) && Inserted(t, login, Current(t, login)) == map[]
  {
    forall g | g in Current(t, login)
      ensures HasRow(t, login, g)
    {
    }
  }

  lemma NothingToSync(t: Tables, login: Login)
    requires OneOidcMembership(t)
    ensures CanStore(t, login, Current(t, login)) && Synced(t, login, Current(t, login)) == t.memberships
  {
    CurrentHaveRows(t, login);
    forall m | m in t.memberships && IsMine(t, login, m)
      ensures t.memberships[m].(active := t.memberships[m].groupId in Current(t, login)) == t.memberships[m]
    {
      ActiveIffCurrent(t, login, m);
    }
    assert Switched(t, login, Current(t, login)) == t.memberships;
  }

  lemma NothingJoined(t: Tables, login: Login)
    ensures CanStore(t, login, {}) && Synced(t, login, {}) == TurnedOff(t, login)
  {
    assert Inserted(t, login, {}) == map[];
    assert Switched(t, login, {}) == TurnedOff(t, login);
  }

  lemma NextTarget(target: seq<Uuid>, i: nat)
    requires i < |target| && forall k, j | 0 <= k < j < |target| :: target[k] < target[j]
    ensures Before(target, i + 1) == Before(target, i) + {target[i]} && target[i] !in Before(target, i)
  {
    assert target[..i + 1] == target[..i] + [target[i]];
  }

  lemma StoringFewer(t: Tables, login: Login, fewer: set<Uuid>, groups: set<Uuid>)
    requires fewer <= groups && CanStore(t, login, groups)
    ensures CanStore(t, login, fewer)
  {
  }

  /** Rows stored for other groups do not show: the row of a group is there or not as before. */
  lemma RowsOfOthers(t: Tables, prior: Tables, login: Login, groups: set<Uuid>, g: Uuid)
    requires CanStore(t, login, groups) && g !in groups
    requires prior == t.(memberships := Synced(t, login, groups))
    ensures HasRow(prior, login, g) <==> HasRow(t, login, g)
  {
    forall m
      ensures IsMine(t, login, m) && t.memberships[m].groupId == g
              <==> IsMine(prior, login, m) && prior.memberships[m].groupId == g
    {
      RowOfOther(t, prior, login, groups, g, m);
    }
  }

  lemma RowOfOther(t: Tables, prior: Tables, login: Login, groups: set<Uuid>, g: Uuid, m: Uuid)
    requires CanStore(t, login, groups) && g !in groups
    requires prior == t.(memberships := Synced(t, login, groups))
    ensures IsMine(t, login, m) && t.memberships[m].groupId == g
            <==> IsMine(prior, login, m) && prior.memberships[m].groupId == g
  {
    if m in Inserted(t, login, groups) {
      assert Synced(t, login, groups)[m] == Inserted(t, login, groups)[m];
    } else if m in t.memberships {
      assert Synced(t, login, groups)[m] == Switched(t, login, groups)[m];
    }
  }

  lemma OneMoreStored(t: Tables, prior: Tables, login: Login, groups: set<Uuid>, g: Uuid)
    requires CanStore(t, login, groups) && g !in groups && g in login.ids
    requires prior == t.(memberships := Synced(t, login, groups))
    ensures CanInsert(prior, login, g) <==> CanStore(t, login, groups + {g})
  {
    RowsOfOthers(t, prior, login, groups, g);
    if !HasRow(t, login, g) {
      assert login.ids[g] in prior.memberships <==>
             (login.ids[g] in t.memberships
              || exists h :: h in groups && !HasRow(t, login, h) && login.ids[h] == login.ids[g]);
    }
  }

  lemma OneMoreInserted(t: Tables, login: Login, groups: set<Uuid>, g: Uuid)
    requires CanStore(t, login, groups) && CanStore(t, login, groups + {g}) && g !in groups
    ensures Inserted(t, login, groups + {g}) ==
            if HasRow(t, login, g) then Inserted(t, login, groups)
            else Inserted(t, login, groups)[login.ids[g] := NewRow(login, g)]
  {
  }

  /** Joining one more group switches its row on, if there is one. */
  lemma OneMoreSwitched(t: Tables, login: Login, groups: set<Uuid>, g: Uuid, m: Uuid)
    requires OneOidcMembership(t) && IsMine(t, login, m) && t.memberships[m].groupId == g
    ensures Switched(t, login, groups + {g}) ==
            Switched(t, login, groups)[m := Switched(t, login, groups)[m].(active := true)]
  {
    forall n | n in t.memberships && IsMine(t, login, n) && t.memberships[n].groupId == g
      ensures n == m
    {
      assert SameKey(t.memberships[m], t.memberships[n]);
    }
  }

  lemma NoneSwitched(t: Tables, login: Login, groups: set<Uuid>, g: Uuid)
    requires !HasRow(t, login, g)
    ensures Switched(t, login, groups + {g}) == Switched(t, login, groups)
  {
  }

  lemma OneMoreSynced(t: Tables, prior: Tables, after: Tables, login: Login, groups: set<Uuid>, g: Uuid, m: Uuid)
    requires OneOidcMembership(t) && CanStore(t, login, groups) && CanStore(t, login, groups + {g}) && g !in groups
    requires prior == t.(memberships := Synced(t, login, groups)) && Activated(prior, after, login, g, m)
    ensures after == t.(memberships := Synced(t, login, groups + {g}))
  {
    RowsOfOthers(t, prior, login, groups, g);
    OneMoreInserted(t, login, groups, g);
    if HasRow(t, login, g) {
      OwnRowIsOld(t, login, groups, g, m);
      OneMoreSwitched(t, login, groups, g, m);
      UpdateLeft(Switched(t, login, groups), Inserted(t, login, groups), m, after.memberships[m]);
    } else {
      NoneSwitched(t, login, groups, g);
      UpdateRight(Switched(t, login, groups), Inserted(t, login, groups), m, after.memberships[m]);
    }
  }

  lemma UpdateLeft(a: map<Uuid, Membership>, b: map<Uuid, Membership>, m: Uuid, row: Membership)
    requires m !in b
    ensures (a + b)[m := row] == a[m := row] + b
  {
  }

  lemma UpdateRight(a: map<Uuid, Membership>, b: map<Uuid, Membership>, m: Uuid, row: Membership)
    ensures (a + b)[m := row] == a + b[m := row]
  {
  }

  /** A row of a group that has not been joined yet is not one of those inserted. */
  lemma OwnRowIsOld(t: Tables, login: Login, groups: set<Uuid>, g: Uuid, m: Uuid)
    requires CanStore(t, login, groups) && g !in groups
    requires m in Synced(t, login, groups) && Synced(t, login, groups)[m].groupId == g
    ensures m in t.memberships && m !in Inserted(t, login, groups)
    ensures Synced(t, login, groups)[m] == Switched(t, login, groups)[m]
  {
  }

  /** Where a row after a synchronization comes from. */
  lemma RowAfterSync(t: Tables, login: Login, groups: set<Uuid>, m: Uuid)
    requires CanStore(t, login, groups) && m in Synced(t, login, groups)
    ensures m in t.memberships ==>
              Synced(t, login, groups)[m] == t.memberships[m].(active := Synced(t, login, groups)[m].active)
    ensures m !in t.memberships ==>
              exists g :: g in groups && !HasRow(t, login, g) && m == login.ids[g]
                          && Synced(t, login, groups)[m] == NewRow(login, g)
  {
  }

  lemma RowsStayDistinct(t: Tables, login: Login, groups: set<Uuid>, m: Uuid, n: Uuid)
    requires OneOidcMembership(t) && CanStore(t, login, groups)
    requires m in Synced(t, login, groups) && n in Synced(t, login, groups)
    requires SameKey(Synced(t, login, groups)[m], Synced(t, login, groups)[n])
    ensures m == n
  {
    RowAfterSync(t, login, groups, m);
    RowAfterSync(t, login, groups, n);
    if m in t.memberships && n in t.memberships {
      assert SameKey(t.memberships[m], t.memberships[n]);
    }
  }

  /** A synchronization keeps the unique index. */
  lemma SyncKeepsOneRow(t: Tables, mappings: Mappings, login: Login)
    requires OneOidcMembership(t) && SyncOn(t, mappings, login).Ok?
    ensures OneOidcMembership(SyncOn(t, mappings, login).value)
  {
    var groups := Targets(t, mappings, login);
    var synced := Synced(t, login, groups);
    forall m, n | m in synced && n in synced && SameKey(synced[m], synced[n])
      ensures m == n
    {
      RowsStayDistinct(t, login, groups, m, n);
    }
  }
}
