/** The access-management lists: loading, keeping and showing rows with the actions they offer, and cutting a page. */
module AccessLists {
  import opened Basics
  import opened Lists
  import opened PolicyTables
  import opened PolicyDecision
  import opened AccessSnapshots
  import opened AccessCommands
  import opened AccessPages

  datatype Listed<T> = Listed(item: T, actions: seq<string>)

  /** A membership as it is listed, with the names of its group and user. */
  datatype NamedMembership = NamedMembership(membership: AccessMembership, groupName: string, username: string)

  // ---------------------------------------------------------------------------------------------
  // Rows
  // ---------------------------------------------------------------------------------------------

  function ShownUser(v: Loaded, p: Principal): AccessUser -> Listed<AccessUser> {
    (u: AccessUser) => Listed(u, UserActions(v, p, u))
  }

  function ShownGroup(v: Loaded): AccessGroup -> Listed<AccessGroup> {
    (g: AccessGroup) => Listed(g, GroupActions(v, g))
  }

  function ShownRole(v: Loaded): AccessRole -> Listed<AccessRole> {
    (x: AccessRole) => Listed(x, RoleActions(v, x))
  }

  function UserIs(id: Uuid): AccessUser -> bool {
    (u: AccessUser) => u.id == id
  }

  function GroupName(groups: seq<AccessGroup>, id: Uuid): string {
    var group := FindGroup(groups, id);
    if group.Some? then group.value.name else ""
  }

  function UserName(users: seq<AccessUser>, id: Uuid): string {
    var user := First(UserIs(id), users);
    if user.Some? then user.value.username else ""
  }

  function Named(v: Loaded, m: AccessMembership): NamedMembership {
    NamedMembership(m, GroupName(v.records.groups, m.groupId), UserName(v.records.users, m.userId))
  }

  function ShownMembership(v: Loaded): AccessMembership -> Listed<NamedMembership> {
    (m: AccessMembership) => Listed(Named(v, m), MembershipActions(v, m))
  }

  const USER_ID := (x: Listed<AccessUser>) => x.item.id
  const GROUP_ID := (x: Listed<AccessGroup>) => x.item.id
  const ROLE_ID := (x: Listed<AccessRole>) => x.item.id
  const MEMBERSHIP_ID := (x: Listed<NamedMembership>) => x.item.membership.id

  /** The kept rows in order, each as it is shown. */
  function ListedRows<S, T>(keep: S -> bool, show: S -> T, rows: seq<S>): seq<T> {
    if rows == [] then []
    else
      var last := rows[|rows| - 1];
      if keep(last) then ListedRows(keep, show, rows[..|rows| - 1]) + [show(last)]
      else ListedRows(keep, show, rows[..|rows| - 1])
  }

  lemma ListedNext<S, T>(keep: S -> bool, show: S -> T, rows: seq<S>, i: nat)
    requires i < |rows|
    ensures ListedRows(keep, show, rows[..i + 1]) ==
            if keep(rows[i]) then ListedRows(keep, show, rows[..i]) + [show(rows[i])]
            else ListedRows(keep, show, rows[..i])
  {
    assert rows[..i + 1][..i] == rows[..i];
  }

  /** Row i of a list is the ith kept row, as it is shown. */
  ghost predicate Shows<S, T>(list: seq<T>, show: S -> T, kept: seq<S>) {
    |list| == |kept| && forall i | 0 <= i < |kept| :: list[i] == show(kept[i])
  }

  lemma {:induction false} ListedRowsShowKept<S, T>(keep: S -> bool, show: S -> T, rows: seq<S>)
    ensures Shows(ListedRows(keep, show, rows), show, Filter(keep, rows))
  {
    if rows != [] {
      ListedRowsShowKept(keep, show, rows[..|rows| - 1]);
    }
  }

  // ---------------------------------------------------------------------------------------------
  // The list queries
  // ---------------------------------------------------------------------------------------------

  /** The page of a list, or the error that stands for a refused cursor. */
  ghost predicate IsListPage<T>(items: seq<T>, id: T -> Uuid, cursor: Cursor, limit: int,
                                r: Result<Page<T>, AccessError>) {
    match r
    case Ok(page) => IsPageOf(items, id, cursor, limit, Ok(page))
    case Err(e) => e == InvalidAccessRequest && IsPageOf(items, id, cursor, limit, Err(InvalidCursor))
  }

  method Paged<T>(items: seq<T>, id: T -> Uuid, cursor: Cursor, limit: int) returns (r: Result<Page<T>, AccessError>)
    ensures IsListPage(items, id, cursor, limit, r)
  {
    var page := PageById(items, id, cursor, limit);
    if page.Err? {
      return Err(InvalidAccessRequest);
    }
    return Ok(page.value);
  }

  /** What the user list answers: the refusal of the load, or a page of the kept users with their actions. */
  ghost predicate IsUserPage(w: World, p: Principal, keep: AccessUser -> bool, cursor: Cursor, limit: int,
                             r: Result<Page<Listed<AccessUser>>, AccessError>) {
    match LoadOn(w, p)
    case Err(e) => r == Err(e)
    case Ok(v) => IsListPage(ListedRows(keep, ShownUser(v, p), v.records.users), USER_ID, cursor, limit, r)
  }

  ghost predicate IsGroupPage(w: World, p: Principal, keep: AccessGroup -> bool, cursor: Cursor, limit: int,
                              r: Result<Page<Listed<AccessGroup>>, AccessError>) {
    match LoadOn(w, p)
    case Err(e) => r == Err(e)
    case Ok(v) => IsListPage(ListedRows(keep, ShownGroup(v), v.records.groups), GROUP_ID, cursor, limit, r)
  }

  ghost predicate IsRolePage(w: World, p: Principal, keep: AccessRole -> bool, cursor: Cursor, limit: int,
                             r: Result<Page<Listed<AccessRole>>, AccessError>) {
    match LoadOn(w, p)
    case Err(e) => r == Err(e)
    case Ok(v) => IsListPage(ListedRows(keep, ShownRole(v), v.records.roles), ROLE_ID, cursor, limit, r)
  }

  ghost predicate IsMembershipPage(w: World, p: Principal, keep: AccessMembership -> bool, cursor: Cursor, limit: int,
                                   r: Result<Page<Listed<NamedMembership>>, AccessError>) {
    match LoadOn(w, p)
    case Err(e) => r == Err(e)
    case Ok(v) =>
      IsListPage(ListedRows(keep, ShownMembership(v), v.records.memberships), MEMBERSHIP_ID, cursor, limit, r)
  }

  method ListUsers(w: World, p: Principal, keep: AccessUser -> bool, cursor: Cursor, limit: int)
    returns (r: Result<Page<Listed<AccessUser>>, AccessError>)
    requires DistinctKeys(w.records)
    ensures IsUserPage(w, p, keep, cursor, limit, r)
  {
    var loaded := Load(w, p);
    if loaded.Err? {
      return Err(loaded.error);
    }
    var v := loaded.value;
    ghost var show := ShownUser(v, p);
    var items := [];
    for i := 0 to |v.records.users|
      invariant items == ListedRows(keep, show, v.records.users[..i])
    {
      var item := v.records.users[i];
      ListedNext(keep, show, v.records.users, i);
      if !keep(item) {
        continue;
      }
      if v.platform && !item.disabled && item.id != p.userId {
        items := items + [Listed(item, ["disable"])];
      } else {
        items := items + [Listed(item, [])];
      }
    }
    assert v.records.users[..|v.records.users|] == v.records.users;
    r := Paged(items, USER_ID, cursor, limit);
  }

  method ListGroups(w: World, p: Principal, keep: AccessGroup -> bool, cursor: Cursor, limit: int)
    returns (r: Result<Page<Listed<AccessGroup>>, AccessError>)
    requires DistinctKeys(w.records)
    ensures IsGroupPage(w, p, keep, cursor, limit, r)
  {
    var loaded := Load(w, p);
    if loaded.Err? {
      return Err(loaded.error);
    }
    var v := loaded.value;
    ghost var show := ShownGroup(v);
    var items := [];
    for i := 0 to |v.records.groups|
      invariant items == ListedRows(keep, show, v.records.groups[..i])
    {
      var item := v.records.groups[i];
      ListedNext(keep, show, v.records.groups, i);
      if !keep(item) {
        continue;
      }
      var actions := ["viewMemberships"];
      if !item.disabled && CanManageGroup(v, item) {
        actions := actions + ["addMember"];
        if item.systemKey.None? {
          actions := actions + ["disable"];
        }
      }
      assert actions == GroupActions(v, item);
      items := items + [Listed(item, actions)];
    }
    assert v.records.groups[..|v.records.groups|] == v.records.groups;
    r := Paged(items, GROUP_ID, cursor, limit);
  }

  method ListRoles(w: World, p: Principal, keep: AccessRole -> bool, cursor: Cursor, limit: int)
    returns (r: Result<Page<Listed<AccessRole>>, AccessError>)
    requires DistinctKeys(w.records)
    ensures IsRolePage(w, p, keep, cursor, limit, r)
  {
    var loaded := Load(w, p);
    if loaded.Err? {
      return Err(loaded.error);
    }
    var v := loaded.value;
    ghost var show := ShownRole(v);
    var items := [];
    for i := 0 to |v.records.roles|
      invariant items == ListedRows(keep, show, v.records.roles[..i])
    {
      var item := v.records.roles[i];
      ListedNext(keep, show, v.records.roles, i);
      if !keep(item) {
        continue;
      }
      var actions := [];
      if item.active && item.systemKey.None? && CanManageRole(v, item) {
        actions := ["disable"];
      }
      items := items + [Listed(item, actions)];
    }
    assert v.records.roles[..|v.records.roles|] == v.records.roles;
    r := Paged(items, ROLE_ID, cursor, limit);
  }

  /** Every key of a list of rows leads to its own row's name. */
  ghost predicate NamesAre<T>(names: map<Uuid, string>, rows: seq<T>, id: T -> Uuid, name: T -> string) {
    && (forall i | 0 <= i < |rows| :: id(rows[i]) in names && names[id(rows[i])] == name(rows[i]))
    && (forall k <- names :: exists i :: 0 <= i < |rows| && id(rows[i]) == k)
  }

  method NamesOf<T>(rows: seq<T>, id: T -> Uuid, name: T -> string) returns (names: map<Uuid, string>)
    requires DistinctIds(rows, id)
    ensures NamesAre(names, rows, id, name)
  {
    names := map[];
    for i := 0 to |rows|
      invariant NamesAre(names, rows[..i], id, name)
    {
      ghost var prior := names;
      names := names[id(rows[i]) := name(rows[i])];
      ghost var before, now := rows[..i], rows[..i + 1];
      assert now == before + [rows[i]];
      forall k | k in names
        ensures exists j :: 0 <= j < |now| && id(now[j]) == k
      {
        if k in prior {
          var j :| 0 <= j < |before| && id(before[j]) == k;
          assert id(now[j]) == k;
        } else {
          assert id(now[i]) == k;
        }
      }
    }
    assert rows[..|rows|] == rows;
  }

  function NameOr(names: map<Uuid, string>, id: Uuid): string {
    if id in names then names[id] else ""
  }

  const GROUP_KEY := (g: AccessGroup) => g.id
  const GROUP_NAME := (g: AccessGroup) => g.name
  const USER_KEY := (u: AccessUser) => u.id
  const USER_NAME := (u: AccessUser) => u.username

  lemma GroupNamesFound(names: map<Uuid, string>, groups: seq<AccessGroup>, id: Uuid)
    requires NamesAre(names, groups, GROUP_KEY, GROUP_NAME)
    ensures NameOr(names, id) == GroupName(groups, id)
  {
    FirstFinds(GroupIs(id), groups);
    if id in names {
      var i :| 0 <= i < |groups| && GROUP_KEY(groups[i]) == id;
      assert groups[i] in groups;
    }
  }

  lemma UserNamesFound(names: map<Uuid, string>, users: seq<AccessUser>, id: Uuid)
    requires NamesAre(names, users, USER_KEY, USER_NAME)
    ensures NameOr(names, id) == UserName(users, id)
  {
    FirstFinds(UserIs(id), users);
    if id in names {
      var i :| 0 <= i < |users| && USER_KEY(users[i]) == id;
      assert users[i] in users;
    }
  }

  method ListMemberships(w: World, p: Principal, keep: AccessMembership -> bool, cursor: Cursor, limit: int)
    returns (r: Result<Page<Listed<NamedMembership>>, AccessError>)
    requires DistinctKeys(w.records)
    ensures IsMembershipPage(w, p, keep, cursor, limit, r)
  {
    var loaded := Load(w, p);
    if loaded.Err? {
      return Err(loaded.error);
    }
    var v := loaded.value;
    LoadedKeysAreDistinct(w, p);
    var groupNames := NamesOf(v.records.groups, GROUP_KEY, GROUP_NAME);
    var userNames := NamesOf(v.records.users, USER_KEY, USER_NAME);
    ghost var show := ShownMembership(v);
    var items := [];
    for i := 0 to |v.records.memberships|
      invariant items == ListedRows(keep, show, v.records.memberships[..i])
    {
      var item := v.records.memberships[i];
      ListedNext(keep, show, v.records.memberships, i);
      if !keep(item) {
        continue;
      }
      var actions := [];
      GroupNamesFound(groupNames, v.records.groups, item.groupId);
      UserNamesFound(userNames, v.records.users, item.userId);
      var named := NamedMembership(item, NameOr(groupNames, item.groupId), NameOr(userNames, item.userId));
      var group := FindGroup(v.records.groups, item.groupId);
      if item.active && item.source == Manual && group.Some? && CanManageGroup(v, group.value) {
        actions := ["revoke"];
      }
      items := items + [Listed(named, actions)];
    }
    assert v.records.memberships[..|v.records.memberships|] == v.records.memberships;
    r := Paged(items, MEMBERSHIP_ID, cursor, limit);
  }

  // ---------------------------------------------------------------------------------------------
  // Following the cursors of one list
  // ---------------------------------------------------------------------------------------------

  /** Where a kept row comes from. */
  lemma {:induction false} KeptIndex<T>(keep: T -> bool, rows: seq<T>, k: nat) returns (i: nat)
    requires k < |Filter(keep, rows)|
    ensures i < |rows| && rows[i] == Filter(keep, rows)[k]
  {
    var front := rows[..|rows| - 1];
    if k < |Filter(keep, front)| {
      i := KeptIndex(keep, front, k);
    } else {
      i := |rows| - 1;
    }
  }

  lemma {:induction false} FilterKeepsDistinct<T>(keep: T -> bool, rows: seq<T>, id: T -> Uuid)
    requires DistinctIds(rows, id)
    ensures DistinctIds(Filter(keep, rows), id)
  {
    if rows != [] {
      var front, last := rows[..|rows| - 1], rows[|rows| - 1];
      FilterKeepsDistinct(keep, front, id);
      forall k | 0 <= k < |Filter(keep, front)|
        ensures id(Filter(keep, front)[k]) != id(last)
      {
        var i := KeptIndex(keep, front, k);
        assert rows[i] == front[i];
      }
    }
  }

  const ROLE_KEY := (x: AccessRole) => x.id
  const MEMBERSHIP_KEY := (m: AccessMembership) => m.id

  /** Whatever a caller loads, its rows are told apart by their identifiers. */
  lemma LoadedKeysAreDistinct(w: World, p: Principal)
    requires DistinctKeys(w.records) && LoadOn(w, p).Ok?
    ensures var records := LoadOn(w, p).value.records;
            && DistinctIds(records.users, USER_KEY) && DistinctIds(records.groups, GROUP_KEY)
            && DistinctIds(records.roles, ROLE_KEY) && DistinctIds(records.memberships, MEMBERSHIP_KEY)
  {
    var v, all := LoadOn(w, p).value, w.records;
    if !v.platform {
      var groups := GroupIds(all, v.managedProjects);
      FilterKeepsDistinct(KeptUser(UserIds(all, groups)), all.users, USER_KEY);
      FilterKeepsDistinct(KeptGroup(groups), all.groups, GROUP_KEY);
      FilterKeepsDistinct(KeptRole(RoleIds(all, v.managedProjects)), all.roles, ROLE_KEY);
      FilterKeepsDistinct(KeptMembership(groups), all.memberships, MEMBERSHIP_KEY);
    }
  }

  /** A row keeps its identifier when it is shown. */
  ghost predicate Identifies<S(!new), T>(show: S -> T, key: S -> Uuid, id: T -> Uuid) {
    forall s: S :: id(show(s)) == key(s)
  }

  /** The rows a sequence of pages showed: every kept row once, in order, as it is to be shown. */
  ghost predicate ShowsEachOnce<S, T>(pages: seq<Page<T>>, id: T -> Uuid, show: S -> T, kept: seq<S>) {
    Shows(Concatenated(pages), show, kept) && DistinctIds(Concatenated(pages), id)
  }

  lemma ListedIdsAreDistinct<S(!new), T>(keep: S -> bool, show: S -> T, key: S -> Uuid, id: T -> Uuid, rows: seq<S>)
    requires DistinctIds(rows, key) && Identifies(show, key, id)
    ensures DistinctIds(ListedRows(keep, show, rows), id)
  {
    FilterKeepsDistinct(keep, rows, key);
    ListedRowsShowKept(keep, show, rows);
  }

  lemma FollowedListShowsEachOnce<S(!new), T>(keep: S -> bool, show: S -> T, key: S -> Uuid, id: T -> Uuid,
      rows: seq<S>, limit: int, pages: seq<Page<T>>)
    requires DistinctIds(rows, key) && Identifies(show, key, id) && Complete(pages)
    requires forall k: nat | k < |pages| :: IsPageAt(ListedRows(keep, show, rows), id, limit, pages, k)
    ensures ShowsEachOnce(pages, id, show, Filter(keep, rows))
  {
    ListedIdsAreDistinct(keep, show, key, id, rows);
    FollowedPagesReturnTheList(ListedRows(keep, show, rows), id, limit, pages);
    ListedRowsShowKept(keep, show, rows);
  }

  /** Following the cursors of the user list shows every kept user once, in order, with its actions. */
  lemma UserPagesShowEachOnce(w: World, p: Principal, keep: AccessUser -> bool, limit: int,
                              pages: seq<Page<Listed<AccessUser>>>)
    requires DistinctKeys(w.records) && Complete(pages)
    requires forall k: nat | k < |pages| :: IsUserPage(w, p, keep, CursorAt(pages, k), limit, Ok(pages[k]))
    ensures LoadOn(w, p).Ok?
    ensures var v := LoadOn(w, p).value;
            ShowsEachOnce(pages, USER_ID, ShownUser(v, p), Filter(keep, v.records.users))
  {
    assert IsUserPage(w, p, keep, CursorAt(pages, 0), limit, Ok(pages[0]));
    LoadedKeysAreDistinct(w, p);
    var v := LoadOn(w, p).value;
    forall k: nat | k < |pages|
      ensures IsPageAt(ListedRows(keep, ShownUser(v, p), v.records.users), USER_ID, limit, pages, k)
    {
      assert IsUserPage(w, p, keep, CursorAt(pages, k), limit, Ok(pages[k]));
    }
    FollowedListShowsEachOnce(keep, ShownUser(v, p), USER_KEY, USER_ID, v.records.users, limit, pages);
  }

  lemma GroupPagesShowEachOnce(w: World, p: Principal, keep: AccessGroup -> bool, limit: int,
                               pages: seq<Page<Listed<AccessGroup>>>)
    requires DistinctKeys(w.records) && Complete(pages)
    requires forall k: nat | k < |pages| :: IsGroupPage(w, p, keep, CursorAt(pages, k), limit, Ok(pages[k]))
    ensures LoadOn(w, p).Ok?
    ensures var v := LoadOn(w, p).value;
            ShowsEachOnce(pages, GROUP_ID, ShownGroup(v), Filter(keep, v.records.groups))
  {
    assert IsGroupPage(w, p, keep, CursorAt(pages, 0), limit, Ok(pages[0]));
    LoadedKeysAreDistinct(w, p);
    var v := LoadOn(w, p).value;
    forall k: nat | k < |pages|
      ensures IsPageAt(ListedRows(keep, ShownGroup(v), v.records.groups), GROUP_ID, limit, pages, k)
    {
      assert IsGroupPage(w, p, keep, CursorAt(pages, k), limit, Ok(pages[k]));
    }
    FollowedListShowsEachOnce(keep, ShownGroup(v), GROUP_KEY, GROUP_ID, v.records.groups, limit, pages);
  }

  lemma RolePagesShowEachOnce(w: World, p: Principal, keep: AccessRole -> bool, limit: int,
                              pages: seq<Page<Listed<AccessRole>>>)
    requires DistinctKeys(w.records) && Complete(pages)
    requires forall k: nat | k < |pages| :: IsRolePage(w, p, keep, CursorAt(pages, k), limit, Ok(pages[k]))
    ensures LoadOn(w, p).Ok?
    ensures var v := LoadOn(w, p).value;
            ShowsEachOnce(pages, ROLE_ID, ShownRole(v), Filter(keep, v.records.roles))
  {
    assert IsRolePage(w, p, keep, CursorAt(pages, 0), limit, Ok(pages[0]));
    LoadedKeysAreDistinct(w, p);
    var v := LoadOn(w, p).value;
    forall k: nat | k < |pages|
      ensures IsPageAt(ListedRows(keep, ShownRole(v), v.records.roles), ROLE_ID, limit, pages, k)
    {
      assert IsRolePage(w, p, keep, CursorAt(pages, k), limit, Ok(pages[k]));
    }
    FollowedListShowsEachOnce(keep, ShownRole(v), ROLE_KEY, ROLE_ID, v.records.roles, limit, pages);
  }

  lemma MembershipPagesShowEachOnce(w: World, p: Principal, keep: AccessMembership -> bool, limit: int,
                                    pages: seq<Page<Listed<NamedMembership>>>)
    requires DistinctKeys(w.records) && Complete(pages)
    requires forall k: nat | k < |pages| :: IsMembershipPage(w, p, keep, CursorAt(pages, k), limit, Ok(pages[k]))
    ensures LoadOn(w, p).Ok?
    ensures var v := LoadOn(w, p).value;
            ShowsEachOnce(pages, MEMBERSHIP_ID, ShownMembership(v), Filter(keep, v.records.memberships))
  {
    assert IsMembershipPage(w, p, keep, CursorAt(pages, 0), limit, Ok(pages[0]));
    LoadedKeysAreDistinct(w, p);
    var v := LoadOn(w, p).value;
    forall k: nat | k < |pages|
      ensures IsPageAt(ListedRows(keep, ShownMembership(v), v.records.memberships), MEMBERSHIP_ID, limit, pages, k)
    {
      assert IsMembershipPage(w, p, keep, CursorAt(pages, k), limit, Ok(pages[k]));
    }
    FollowedListShowsEachOnce(keep, ShownMembership(v), MEMBERSHIP_KEY, MEMBERSHIP_ID, v.records.memberships, limit,
                              pages);
  }
}
