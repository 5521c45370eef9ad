/**
 The operator's PostgreSQL operations and the retry loop around them. The closure handed to the retry loop is a
 value, `PgOp`; one loop runs them all.
 */
module PostgresOps {
  import opened Basics
  import opened Cluster
  import opened GrantSql
  import Backoff
  import VaultStore

  datatype Login = Login(name: string, password: string)

  datatype PgOp =
    | SyncUser(username: string, password: string)
    | SyncRoleGroup(group: string, wanted: seq<string>)
    | SyncDatabase(database: string, owner: string, schema: string, template: string)
    | DeleteDb(database: string)
    | SyncGrants(database: string, role: string, grants: seq<GrantItem>, defaults: seq<DefaultPrivilege>)

  const NO_SERVER := Server(map[], {}, map[], map[], {})

  function ServerOf(w: World, id: string): Server {
    if id in w.servers then w.servers[id] else NO_SERVER
  }

  function On(admin: Login, database: string): Conn {
    Conn(admin.name, admin.password, database)
  }

  function Existing(s: Server, names: seq<string>): set<string> {
    set m | m in names && m in s.roles
  }

  // ------------------------------------------- what an operation may and must do

  /** The statements an operation may send while the server is in state s. */
  ghost predicate Issues(op: PgOp, s: Server, c: Conn, stmt: Stmt) {
    match op
    case SyncUser(u, p) =>
      c.database == DEFAULT_DB && (stmt == AlterUser(u, p) || (stmt == CreateUser(u, p) && u != c.login))
    case SyncRoleGroup(g, wanted) =>
      c.database == DEFAULT_DB
      && (stmt == CreateRole(g)
          || (stmt.GrantRole? && stmt.name == g && stmt.member in wanted && stmt.member in s.roles)
          || (stmt.RevokeRole? && stmt.name == g && stmt.member !in wanted && stmt.member in Members(s, g)))
    case SyncDatabase(d, o, schema, t) =>
      || (c.database == DEFAULT_DB && (stmt == AlterDatabaseOwner(d, o) || stmt == CreateDatabase(d, o, t)))
      || (c.database == d && stmt == AlterSchemaOwner(schema, o) && schema != "" && schema != "public")
    case DeleteDb(d) =>
      c.database == DEFAULT_DB && (stmt == TerminateSessions(d) || stmt == DropDatabase(d))
    case SyncGrants(d, role, grants, defaults) =>
      || (c.database == DEFAULT_DB && exists g :: g in grants && g.kind.Database? && stmt == DatabaseStmt(g, d, role))
      || (c.database == d && exists g :: g in grants && !g.kind.Database? && Some(stmt) == OtherStmt(g, role))
      || (c.database == d && exists p :: p in defaults && Some(stmt) == FutureStmt(p, role))
  }

  function DatabaseStmt(g: GrantItem, database: string, role: string): (stmt: Stmt)
    ensures stmt.GrantQuery?
  {
    GrantQuery(DatabaseGrantQuery(g, QuoteIdentifier(database), QuoteIdentifier(role)))
  }

  function OtherStmt(g: GrantItem, role: string): (stmt: Option<Stmt>)
    ensures stmt.Some? ==> stmt.value.GrantQuery?
  {
    match BuildGrantQuery(g, QuoteIdentifier(role))
    case None => None
    case Some(text) => Some(GrantQuery(text))
  }

  function FutureStmt(p: DefaultPrivilege, role: string): (stmt: Option<Stmt>)
    ensures stmt.Some? ==> stmt.value.GrantQuery?
  {
    match DefaultPrivilegeQuery(p, QuoteIdentifier(role))
    case None => None
    case Some(text) => Some(GrantQuery(text))
  }

  ghost predicate OpAct(w: World, act: Act, id: string, admin: Login, op: PgOp) {
    || act.Disturbed?
    || (act.Catalog? && act.id == id && act.conn == On(admin, act.conn.database))
    || (act.Sql? && act.id == id && act.conn == On(admin, act.conn.database)
        && Issues(op, ServerOf(w, id), act.conn, act.stmt))
  }

  /** The goal of an operation. */
  ghost predicate Achieved(op: PgOp, s: Server) {
    match op
    case SyncUser(u, p) => u in s.passwords && s.passwords[u] == p
    case SyncRoleGroup(g, wanted) => g in s.roles && Members(s, g) == Existing(s, wanted)
    case SyncDatabase(d, o, _, _) => d in s.databases && s.databases[d].owner == o
    case DeleteDb(d) => d !in s.databases
    case SyncGrants(_, _, _, _) => Readable(op) ==> Wanted(op) <= s.privileges
  }

  /** The privilege lists are ones the printer's text carries over faithfully. */
  ghost predicate Readable(op: PgOp)
    requires op.SyncGrants?
  {
    && (forall g :: g in op.grants ==> ArePrivileges(g.privileges))
    && (forall p :: p in op.defaults ==> ArePrivileges(p.privileges))
  }

  /** The privileges one item asks for, named as the server names them. */
  function ItemPrivileges(g: GrantItem, database: string, role: string): set<Privilege> {
    if g.kind.Database? then Granted("", Statement(g.privileges, OnDatabase(CutNul(database)), CutNul(role)))
    else if IsOther(g.kind) then Granted(database, Statement(g.privileges, TargetOf(g), CutNul(role)))
    else {}
  }

  function DefaultPrivileges(p: DefaultPrivilege, database: string, role: string): set<Privilege> {
    if FutureKeyword(p.objectType).None? then {}
    else Granted(database,
                 Statement(p.privileges, FutureObjects(FutureKeyword(p.objectType).value, CutNul(p.schema)),
                           CutNul(role)))
  }

  ghost function Wanted(op: PgOp): set<Privilege>
    requires op.SyncGrants?
  {
    (set g, p | g in op.grants && p in ItemPrivileges(g, op.database, op.role) :: p)
    + (set d, p | d in op.defaults && p in DefaultPrivileges(d, op.database, op.role) :: p)
  }

  // ------------------------------------------------------ interference of others

  /** Equal up to passwords, and the same names can log in. */
  ghost predicate SameCatalogs(s: Server, t: Server) {
    s == t.(passwords := s.passwords) && s.passwords.Keys == t.passwords.Keys
  }

  lemma OthersKeepCatalogs(w: World, a: Outside, id: string)
    ensures id in Disturb(w, a).servers <==> id in w.servers
    ensures SameCatalogs(ServerOf(w, id), ServerOf(Disturb(w, a), id))
    ensures forall u :: u in w.admins && u in ServerOf(w, id).passwords ==>
              ServerOf(Disturb(w, a), id).passwords[u] == ServerOf(w, id).passwords[u]
  {
  }

  // ------------------------------------------------------------------ operations

  method CreateOrUpdateUser(r: Remote, id: string, admin: Login, username: string, password: string) returns (ok: bool)
    requires r.Valid()
    modifies r
    ensures r.Grew() && r.clock == old(r.clock)
    ensures forall i :: |old(r.trace)| <= i < |r.trace| ==>
              OpAct(r.history[i], r.trace[i], id, admin, SyncUser(username, password))
    ensures ok ==> Achieved(SyncUser(username, password), ServerOf(r.world, id))
    // Success rests on a statement that the server acknowledged.
    ensures ok ==> |r.trace| > |old(r.trace)|
                   && UserAcknowledged(r.history[|r.trace| - 1], r.trace[|r.trace| - 1], id, username, password)
    ensures r.Calm(old(r.calls)) ==>
              ok == (id in old(r.world.servers) && CanConnect(old(r.world.servers)[id], On(admin, DEFAULT_DB))
                     && (username in old(r.world.servers)[id].passwords || username !in old(r.world.servers)[id].roles))
    ensures r.Calm(old(r.calls)) ==>
              r.world == if ok then WithUser(old(r.world), id, username, password) else old(r.world)
  {
    hide Perform, Disturb, Replayed;
    var conn := On(admin, DEFAULT_DB);
    var s := r.Query(id, conn);
    if s.None? {
      return false;
    }
    OthersKeepCatalogs(r.world, r.OthersAt(r.calls), id);
    if username in s.value.passwords {
      ok := r.Exec(id, conn, AlterUser(username, password));
    } else {
      ok := r.Exec(id, conn, CreateUser(username, password));
    }
  }

  /** The server took a statement that sets this password, and said so. */
  ghost predicate UserAcknowledged(w: World, act: Act, id: string, username: string, password: string) {
    && act.Sql? && act.id == id && act.outcome == Acked && Accepted(w, id, act.conn, act.stmt)
    && (act.stmt == AlterUser(username, password) || act.stmt == CreateUser(username, password))
  }

  /** The administrator can get into the server. */
  predicate LetsIn(w: World, id: string, admin: Login) {
    id in w.servers && CanConnect(w.servers[id], On(admin, DEFAULT_DB))
  }

  lemma SameDoor(s: Server, t: Server, c: Conn)
    requires s.passwords == t.passwords && s.databases == t.databases
    ensures CanConnect(s, c) <==> CanConnect(t, c)
  {
  }

  /** The world in which the user exists with that password. */
  function WithUser(w: World, id: string, username: string, password: string): World
    requires id in w.servers
  {
    var s := w.servers[id];
    var t := if username in s.passwords then s else AddRole(s, username);
    SetServer(w, id, t.(passwords := s.passwords[username := password]))
  }

  /** The statements a membership sync may send: nothing outside the difference between actual and desired members. */
  ghost predicate InDifference(act: Act, s0: Server, current: set<string>, wanted: seq<string>) {
    act.Sql? ==>
      || (act.stmt.GrantRole? && act.stmt.member in Existing(s0, wanted) - current)
      || (act.stmt.RevokeRole? && act.stmt.member in current - Existing(s0, wanted))
  }

  /** One desired role that is not a member: GRANT, unless there is no such role. */
  method AddMember(r: Remote, id: string, admin: Login, group: string, member: string, ghost wanted: seq<string>)
    returns (ok: bool)
    requires r.Valid() && id in r.world.servers && member in wanted && group in r.world.servers[id].roles
    modifies r
    ensures r.Grew() && r.clock == old(r.clock) && id in r.world.servers
    ensures forall i :: |old(r.trace)| <= i < |r.trace| ==>
              && OpAct(r.history[i], r.trace[i], id, admin, SyncRoleGroup(group, wanted))
              && (r.trace[i].Sql? ==>
                  r.trace[i].stmt == GrantRole(group, member) && member in old(r.world.servers)[id].roles)
    ensures ok ==> SyncedSoFar(r.world.servers[id], old(r.world.servers)[id], group,
                               Members(old(r.world.servers)[id], group) + Existing(old(r.world.servers)[id], [member]))
    ensures r.Calm(old(r.calls)) && LetsIn(old(r.world), id, admin) ==>
              (ok <==> Addable(old(r.world.servers)[id], group, member)) && (ok ==> LetsIn(r.world, id, admin))
  {
    hide Perform, Disturb, Replayed, Apply, CanConnect;
    var conn := On(admin, DEFAULT_DB);
    OthersKeepCatalogs(r.world, r.OthersAt(r.calls), id);
    var s := r.Query(id, conn);
    if s.None? {
      return false;
    }
    if member !in s.value.roles {
      return true;
    }
    OthersKeepCatalogs(r.world, r.OthersAt(r.calls), id);
    GrantEffect(r.Met().servers[id], DEFAULT_DB, group, member);
    ghost var before := r.Met().servers[id];
    ok := r.Exec(id, conn, GrantRole(group, member));
    if ok {
      SameDoor(before, r.world.servers[id], conn);
    }
  }

  /** One member that is not desired: REVOKE. */
  method RemoveMember(r: Remote, id: string, admin: Login, group: string, member: string, ghost wanted: seq<string>)
    returns (ok: bool)
    requires r.Valid() && id in r.world.servers && member !in wanted && member in Members(r.world.servers[id], group)
    modifies r
    ensures r.Grew() && r.clock == old(r.clock) && id in r.world.servers
    ensures forall i :: |old(r.trace)| <= i < |r.trace| ==>
              && OpAct(r.history[i], r.trace[i], id, admin, SyncRoleGroup(group, wanted))
              && (r.trace[i].Sql? ==> r.trace[i].stmt == RevokeRole(group, member))
    ensures ok ==> SyncedSoFar(r.world.servers[id], old(r.world.servers)[id], group,
                               Members(old(r.world.servers)[id], group) - {member})
    ensures r.Calm(old(r.calls)) && LetsIn(old(r.world), id, admin) ==> ok && LetsIn(r.world, id, admin)
  {
    hide Perform, Disturb, Replayed, Apply, CanConnect;
    OthersKeepCatalogs(r.world, r.OthersAt(r.calls), id);
    RevokeEffect(r.Met().servers[id], DEFAULT_DB, group, member);
    ghost var before := r.Met().servers[id];
    ok := r.Exec(id, On(admin, DEFAULT_DB), RevokeRole(group, member));
    if ok {
      SameDoor(before, r.world.servers[id], On(admin, DEFAULT_DB));
    }
  }

  /** The first loop of the membership diff. */
  method AddMembers(r: Remote, id: string, admin: Login, group: string, current: set<string>, wanted: seq<string>)
    returns (ok: bool, desired: set<string>)
    requires r.Valid() && id in r.world.servers
    requires group in r.world.servers[id].roles && current == Members(r.world.servers[id], group)
    modifies r
    ensures r.Grew() && r.clock == old(r.clock) && id in r.world.servers
    ensures forall i :: |old(r.trace)| <= i < |r.trace| ==>
              && OpAct(r.history[i], r.trace[i], id, admin, SyncRoleGroup(group, wanted))
              && InDifference(r.trace[i], old(r.world.servers)[id], current, wanted)
    ensures ok ==> desired == (set m | m in wanted)
                   && SyncedSoFar(r.world.servers[id], old(r.world.servers)[id], group,
                                  current + Existing(old(r.world.servers)[id], wanted))
    ensures r.Calm(old(r.calls)) && LetsIn(old(r.world), id, admin) ==>
              (ok <==> AllAddable(old(r.world.servers)[id], group, current, wanted))
              && (ok ==> LetsIn(r.world, id, admin))
  {
    hide Perform, Disturb, Replayed, Apply, CanConnect, OpAct, Issues, Members, LetsIn, Addable;
    ghost var op, s0, t0 := SyncRoleGroup(group, wanted), r.world.servers[id], |r.trace|;
    desired := {};
    ok := true;
    for k := 0 to |wanted|
      invariant ok && desired == set m | m in wanted[..k]
      invariant r.Grew() && r.clock == old(r.clock) && id in r.world.servers
      invariant SyncedSoFar(r.world.servers[id], s0, group, current + Existing(s0, wanted[..k]))
      invariant r.Calm(old(r.calls)) && LetsIn(old(r.world), id, admin) ==>
                  LetsIn(r.world, id, admin) && AllAddable(s0, group, current, wanted[..k])
      invariant forall i :: t0 <= i < |r.trace| ==>
                  OpAct(r.history[i], r.trace[i], id, admin, op) && InDifference(r.trace[i], s0, current, wanted)
    {
      var member := wanted[k];
      desired := desired + {member};
      assert wanted[..k + 1] == wanted[..k] + [member];
      assert current + Existing(s0, wanted[..k + 1]) == current + Existing(s0, wanted[..k]) + Existing(s0, [member]);
      if member in current {
        assert member in Existing(s0, [member]) ==> member in current;
        continue;
      }
      SameAddable(r.world.servers[id], s0, group, member);
      ok := AddMember(r, id, admin, group, member, wanted);
      if !ok {
        return;
      }
    }
    assert wanted[..|wanted|] == wanted;
  }

  /** The second loop; the map is visited in any order. */
  method RemoveMembers(r: Remote, id: string, admin: Login, group: string, current: set<string>, desired: set<string>,
                       ghost wanted: seq<string>)
    returns (ok: bool)
    requires r.Valid() && id in r.world.servers && desired == set m | m in wanted
    requires group in r.world.servers[id].roles && current <= r.world.servers[id].roles
    requires Members(r.world.servers[id], group) == current + Existing(r.world.servers[id], wanted)
    modifies r
    ensures r.Grew() && r.clock == old(r.clock) && id in r.world.servers
    ensures forall i :: |old(r.trace)| <= i < |r.trace| ==>
              && OpAct(r.history[i], r.trace[i], id, admin, SyncRoleGroup(group, wanted))
              && InDifference(r.trace[i], old(r.world.servers)[id], current, wanted)
    ensures ok ==>
              SyncedSoFar(r.world.servers[id], old(r.world.servers)[id], group,
                          Existing(old(r.world.servers)[id], wanted))
    ensures r.Calm(old(r.calls)) && LetsIn(old(r.world), id, admin) ==> ok
  {
    hide Perform, Disturb, Replayed, Apply, CanConnect, OpAct, Issues, Members, LetsIn;
    ghost var op, s0, t0 := SyncRoleGroup(group, wanted), r.world.servers[id], |r.trace|;
    var rest := current;
    ok := true;
    while rest != {}
      invariant ok && rest <= current
      invariant r.Grew() && r.clock == old(r.clock) && id in r.world.servers
      invariant SyncedSoFar(r.world.servers[id], s0, group, rest + Existing(s0, wanted))
      invariant r.Calm(old(r.calls)) && LetsIn(old(r.world), id, admin) ==> LetsIn(r.world, id, admin)
      invariant forall i :: t0 <= i < |r.trace| ==>
                  OpAct(r.history[i], r.trace[i], id, admin, op) && InDifference(r.trace[i], s0, current, wanted)
      decreases rest
    {
      var member :| member in rest;
      ghost var before := rest;
      rest := rest - {member};
      if member in desired {
        assert rest + Existing(s0, wanted) == before + Existing(s0, wanted);
        continue;
      }
      ok := RemoveMember(r, id, admin, group, member, wanted);
      if !ok {
        return;
      }
      assert rest + Existing(s0, wanted) == before + Existing(s0, wanted) - {member};
    }
    assert rest + Existing(s0, wanted) == Existing(s0, wanted);
  }

  /** The membership diff. `current` is what the catalog reported just before. */
  method SyncRoleGroupMembers(r: Remote, id: string, admin: Login, group: string, current: set<string>,
                              wanted: seq<string>)
    returns (ok: bool)
    requires r.Valid() && id in r.world.servers
    requires group in r.world.servers[id].roles && current == Members(r.world.servers[id], group)
    modifies r
    ensures r.Grew() && r.clock == old(r.clock)
    ensures forall i :: |old(r.trace)| <= i < |r.trace| ==>
              && OpAct(r.history[i], r.trace[i], id, admin, SyncRoleGroup(group, wanted))
              && InDifference(r.trace[i], old(r.world.servers)[id], current, wanted)
    ensures ok ==> Achieved(SyncRoleGroup(group, wanted), ServerOf(r.world, id))
    ensures r.Calm(old(r.calls)) && LetsIn(old(r.world), id, admin) ==>
              (ok <==> AllAddable(old(r.world.servers)[id], group, current, wanted))
  {
    hide Perform, Disturb, Replayed, Apply, CanConnect, OpAct, Issues, LetsIn, AllAddable;
    ghost var s0 := r.world.servers[id];
    var desired;
    ok, desired := AddMembers(r, id, admin, group, current, wanted);
    if !ok {
      return;
    }
    assert Existing(r.world.servers[id], wanted) == Existing(s0, wanted);
    ok := RemoveMembers(r, id, admin, group, current, desired, wanted);
    assert ok ==> Existing(r.world.servers[id], wanted) == Existing(s0, wanted);
  }

  ghost predicate SyncedSoFar(s: Server, s0: Server, group: string, members: set<string>) {
    && s.roles == s0.roles && group in s.roles && Members(s, group) == members
    && forall g :: g != group ==> Members(s, g) == Members(s0, g)
  }

  /** The server would take the role as a member of the group; a role that does not exist is skipped. */
  predicate Addable(s: Server, group: string, member: string) {
    member in s.roles ==> !Circular(s, group, member)
  }

  predicate AllAddable(s: Server, group: string, current: set<string>, wanted: seq<string>) {
    forall m :: m in wanted && m !in current ==> Addable(s, group, m)
  }

  /** Members that the group gains or loses do not change what belongs to it in a circle. */
  lemma SameAddable(s: Server, t: Server, group: string, member: string)
    requires s.roles == t.roles && forall g :: g != group ==> Members(s, g) == Members(t, g)
    ensures Addable(s, group, member) <==> Addable(t, group, member)
  {
    hide Members;
    if group != member {
      SameWithin(s, t, group, member, |s.roles|);
    }
  }

  lemma {:induction false} SameWithin(s: Server, t: Server, group: string, outer: string, depth: nat)
    requires outer != group && forall g :: g != group ==> Members(s, g) == Members(t, g)
    ensures WithinGroup(s, group, outer, depth) <==> WithinGroup(t, group, outer, depth)
    decreases depth
  {
    hide Members;
    if depth > 0 && group !in Members(s, outer) {
      forall g | g in Members(s, outer)
        ensures WithinGroup(s, group, g, depth - 1) <==> WithinGroup(t, group, g, depth - 1)
      {
        SameWithin(s, t, group, g, depth - 1);
      }
    }
  }

  /** What the wanted list must satisfy for a server on which the group may have to be created first. */
  predicate Joinable(s: Server, group: string, wanted: seq<string>) {
    var t := WithGroup(s, group);
    AllAddable(t, group, Members(t, group), wanted)
  }

  function WithGroup(s: Server, group: string): Server {
    if group in s.roles then s else AddRole(s, group)
  }

  /** A new group takes any list that does not name the group itself. */
  lemma NewGroupTakesAll(s: Server, group: string, wanted: seq<string>)
    requires group !in s.roles
    ensures Joinable(s, group, wanted) <==> group !in wanted
  {
    var t := AddRole(s, group);
    forall m | m != group
      ensures !WithinGroup(t, group, m, |t.roles|)
    {
      NewIsNowhere(s, group, m, |t.roles|);
    }
    assert group in wanted ==> !Addable(t, group, group);
  }

  lemma {:induction false} NewIsNowhere(s: Server, name: string, group: string, depth: nat)
    ensures !WithinGroup(AddRole(s, name), name, group, depth)
    decreases depth
  {
    var t := AddRole(s, name);
    if depth > 0 {
      forall g | g in Members(t, group)
        ensures !WithinGroup(t, name, g, depth - 1)
      {
        NewIsNowhere(s, name, g, depth - 1);
      }
    }
  }

  lemma GrantEffect(s: Server, database: string, group: string, member: string)
    ensures var t := Apply(s, database, GrantRole(group, member));
            && (t.Some? <==> member in s.roles && group in s.roles && Addable(s, group, member))
            && (t.Some? ==>
                && t.value.roles == s.roles && t.value.passwords == s.passwords && t.value.databases == s.databases
                && Members(t.value, group) == Members(s, group) + {member}
                && forall g :: g != group ==> Members(t.value, g) == Members(s, g))
  {
    hide Circular;
  }

  lemma RevokeEffect(s: Server, database: string, group: string, member: string)
    ensures var t := Apply(s, database, RevokeRole(group, member));
            && (t.Some? <==> member in s.roles && group in s.roles)
            && (t.Some? ==>
                && t.value.roles == s.roles && t.value.passwords == s.passwords && t.value.databases == s.databases
                && Members(t.value, group) == Members(s, group) - {member}
                && forall g :: g != group ==> Members(t.value, g) == Members(s, g))
  {
  }

  /** The role itself: looked up, created if missing. */
  method EnsureGroupRole(r: Remote, id: string, admin: Login, group: string,
                         ghost wanted: seq<string>)
    returns (ok: bool)
    requires r.Valid()
    modifies r
    ensures r.Grew() && r.clock == old(r.clock)
    ensures forall i :: |old(r.trace)| <= i < |r.trace| ==>
              && OpAct(r.history[i], r.trace[i], id, admin, SyncRoleGroup(group, wanted))
              && (group in ServerOf(old(r.world), id).roles ==> !r.trace[i].Sql?)
    ensures ok ==> id in r.world.servers && group in r.world.servers[id].roles
    ensures group in ServerOf(old(r.world), id).roles ==>
              SameCatalogs(ServerOf(old(r.world), id), ServerOf(r.world, id))
    ensures r.Calm(old(r.calls)) && LetsIn(old(r.world), id, admin) ==>
              ok && LetsIn(r.world, id, admin) && r.world.servers[id] == WithGroup(old(r.world.servers)[id], group)
  {
    hide Perform, Disturb, Replayed, Apply, CanConnect;
    var conn := On(admin, DEFAULT_DB);
    OthersKeepCatalogs(r.world, r.OthersAt(r.calls), id);
    var s := r.Query(id, conn);
    if s.None? {
      return false;
    }
    ok := true;
    if group !in s.value.roles {
      OthersKeepCatalogs(r.world, r.OthersAt(r.calls), id);
      CreateRoleEffect(r.Met().servers[id], DEFAULT_DB, group);
      ghost var before := r.Met().servers[id];
      ok := r.Exec(id, conn, CreateRole(group));
      if ok {
        SameDoor(before, r.world.servers[id], conn);
      }
    }
  }

  method CreateOrUpdateRoleGroup(r: Remote, id: string, admin: Login, group: string, wanted: seq<string>)
    returns (ok: bool)
    requires r.Valid()
    modifies r
    ensures r.Grew() && r.clock == old(r.clock)
    ensures forall i :: |old(r.trace)| <= i < |r.trace| ==>
              OpAct(r.history[i], r.trace[i], id, admin, SyncRoleGroup(group, wanted))
    ensures ok ==> Achieved(SyncRoleGroup(group, wanted), ServerOf(r.world, id))
    // A second synchronisation sends no statement, whatever duplicates the list has.
    ensures Achieved(SyncRoleGroup(group, wanted), ServerOf(old(r.world), id)) ==>
              forall i :: |old(r.trace)| <= i < |r.trace| ==> !r.trace[i].Sql?
    // Without faults it succeeds exactly if no role that is to be added is the group itself or a group it belongs to.
    ensures r.Calm(old(r.calls)) && LetsIn(old(r.world), id, admin) ==>
              (ok <==> Joinable(old(r.world.servers)[id], group, wanted))
  {
    hide Perform, Disturb, Replayed, Apply, CanConnect, OpAct, Issues, AllAddable, WithGroup, LetsIn;
    ok := EnsureGroupRole(r, id, admin, group, wanted);
    if !ok {
      return;
    }
    var current := GetCurrentMembers(r, id, admin, group, wanted);
    if current.None? {
      return false;
    }
    ok := SyncRoleGroupMembers(r, id, admin, group, current.value, wanted);
  }

  method GetCurrentMembers(r: Remote, id: string, admin: Login, group: string, ghost wanted: seq<string>)
    returns (members: Option<set<string>>)
    requires r.Valid()
    modifies r
    ensures r.Grew() && r.clock == old(r.clock)
    ensures forall i :: |old(r.trace)| <= i < |r.trace| ==>
              OpAct(r.history[i], r.trace[i], id, admin, SyncRoleGroup(group, wanted)) && !r.trace[i].Sql?
    ensures members.Some? ==> id in r.world.servers && members.value == Members(r.world.servers[id], group)
    ensures SameCatalogs(ServerOf(old(r.world), id), ServerOf(r.world, id))
    ensures r.Calm(old(r.calls)) && LetsIn(old(r.world), id, admin) ==> members.Some? && r.world == old(r.world)
  {
    hide Perform, Disturb, Replayed, CanConnect;
    OthersKeepCatalogs(r.world, r.OthersAt(r.calls), id);
    var s := r.Query(id, On(admin, DEFAULT_DB));
    members := if s.None? then None else Some(Members(s.value, group));
  }

  lemma CreateRoleEffect(s: Server, database: string, group: string)
    ensures var t := Apply(s, database, CreateRole(group));
            && (t.Some? <==> group !in s.roles)
            && (t.Some? ==>
                group in t.value.roles && t.value.passwords == s.passwords && t.value.databases == s.databases)
            && (t.Some? ==> t.value == WithGroup(s, group))
  {
  }

  // ------------------------------------------------------------------- databases

  /** What the operation makes of the server: only this database changes, and its schema owner only if it is new. */
  function DatabaseAfter(s: Server, database: string, owner: string, schema: string, template: string): Db
    requires database in s.databases || template == "" || template in s.databases
  {
    if database in s.databases then s.databases[database].(owner := owner)
    else
      var schemas := if template == "" then map["public" := "pg_database_owner"] else s.databases[template].schemas;
      Db(owner, if schema != "" && schema != "public" && schema in schemas then schemas[schema := owner] else schemas)
  }

  predicate CanSyncDatabase(s: Server, database: string, owner: string, template: string) {
    owner in s.roles && (database in s.databases || template == "" || template in s.databases)
  }

  /** Schema ownership is touched only right after a CREATE DATABASE of the same attempt was acknowledged. */
  ghost predicate SchemaFollowsCreate(trace: seq<Act>, from: nat, i: nat)
    requires i < |trace|
  {
    trace[i].Sql? && trace[i].stmt.AlterSchemaOwner? ==>
      i >= from + 4 && trace[i - 4].Sql? && trace[i - 4].stmt.CreateDatabase? && trace[i - 4].outcome == Acked
  }

  function OwnedSchema(d: Db, owner: string, schema: string): Db {
    if schema in d.schemas then d.(schemas := d.schemas[schema := owner]) else d
  }

  /** The world in which the server has this database. */
  function WithDatabase(w: World, id: string, database: string, d: Db): World
    requires id in w.servers
  {
    SetServer(w, id, w.servers[id].(databases := w.servers[id].databases[database := d]))
  }

  /** The second half, in a session of the new database. */
  method OwnSchema(r: Remote, id: string, admin: Login, database: string, owner: string, schema: string,
                   ghost template: string)
    returns (ok: bool)
    requires r.Valid() && schema != "" && schema != "public"
    requires id in r.world.servers && database in r.world.servers[id].databases
    modifies r
    ensures r.Grew() && r.clock == old(r.clock) && id in r.world.servers
    ensures forall i :: |old(r.trace)| <= i < |r.trace| ==>
              && OpAct(r.history[i], r.trace[i], id, admin, SyncDatabase(database, owner, schema, template))
              && (r.trace[i].Sql? ==> r.trace[i].stmt.AlterSchemaOwner? && i == |old(r.trace)| + 3)
    ensures ok ==> var s := old(r.world.servers)[id];
                   r.world.servers[id].databases
                   == s.databases[database := OwnedSchema(s.databases[database], owner, schema)]
    ensures r.Calm(old(r.calls)) && CanConnect(old(r.world.servers)[id], On(admin, database))
            && owner in old(r.world.servers)[id].roles ==>
              ok && r.world == WithDatabase(old(r.world), id, database,
                                            OwnedSchema(old(r.world.servers)[id].databases[database], owner, schema))
  {
    hide Perform, Disturb, Replayed;
    OthersKeepCatalogs(r.world, r.OthersAt(r.calls), id);
    var t := r.Query(id, On(admin, database));
    if t.None? {
      return false;
    }
    if schema !in t.value.databases[database].schemas {
      return true;
    }
    OthersKeepCatalogs(r.world, r.OthersAt(r.calls), id);
    ok := r.Exec(id, On(admin, database), AlterSchemaOwner(schema, owner));
  }

  /** CREATE DATABASE, then the owner of its schema. */
  method CreateNewDatabase(r: Remote, id: string, admin: Login, database: string, owner: string, schema: string,
                           template: string)
    returns (ok: bool)
    requires r.Valid() && id in r.world.servers && database !in r.world.servers[id].databases
    modifies r
    ensures r.Grew() && r.clock == old(r.clock) && id in r.world.servers
    ensures forall i :: |old(r.trace)| <= i < |r.trace| ==>
              && OpAct(r.history[i], r.trace[i], id, admin, SyncDatabase(database, owner, schema, template))
              && SchemaFollowsCreate(r.trace, |old(r.trace)|, i)
    ensures ok ==> var s := old(r.world.servers)[id];
                   && CanSyncDatabase(s, database, owner, template)
                   && r.world.servers[id].databases
                      == s.databases[database := DatabaseAfter(s, database, owner, schema, template)]
    ensures r.Calm(old(r.calls)) && CanConnect(old(r.world.servers)[id], On(admin, DEFAULT_DB)) ==>
              && ok == CanSyncDatabase(old(r.world.servers)[id], database, owner, template)
              && r.world == if ok then WithDatabase(old(r.world), id, database,
                                                    DatabaseAfter(old(r.world.servers)[id], database, owner, schema,
                                                                  template))
                            else old(r.world)
  {
    hide Perform, Disturb, Replayed, Apply, CanConnect, DatabaseAfter, OwnedSchema, CanSyncDatabase;
    OthersKeepCatalogs(r.world, r.OthersAt(r.calls), id);
    CreateDatabaseEffect(r.Met().servers[id], admin, database, owner, schema, template);
    SameCreation(r.world.servers[id], r.Met().servers[id], database, owner, schema, template);
    ok := r.Exec(id, On(admin, DEFAULT_DB), CreateDatabase(database, owner, template));
    if !ok || schema == "" || schema == "public" {
      return;
    }
    ok := OwnSchema(r, id, admin, database, owner, schema, template);
  }

  /** CREATE DATABASE, and what is left to do for the schema. */
  lemma CreateDatabaseEffect(s: Server, admin: Login, database: string, owner: string, schema: string, template: string)
    requires database !in s.databases
    ensures var t := Apply(s, DEFAULT_DB, CreateDatabase(database, owner, template));
            && (t.Some? <==> CanSyncDatabase(s, database, owner, template))
            && (t.Some? ==>
                && database in t.value.databases
                && t.value == s.(databases := s.databases[database := t.value.databases[database]])
                && (CanConnect(s, On(admin, DEFAULT_DB)) ==> CanConnect(t.value, On(admin, database)))
                && owner in t.value.roles
                && var d := t.value.databases[database];
                   DatabaseAfter(s, database, owner, schema, template)
                   == if schema == "" || schema == "public" then d else OwnedSchema(d, owner, schema))
  {
  }

  lemma SameCreation(s: Server, t: Server, database: string, owner: string, schema: string, template: string)
    requires SameCatalogs(s, t) && database !in s.databases
    ensures CanSyncDatabase(t, database, owner, template) <==> CanSyncDatabase(s, database, owner, template)
    ensures CanSyncDatabase(s, database, owner, template) ==>
              DatabaseAfter(t, database, owner, schema, template) == DatabaseAfter(s, database, owner, schema, template)
  {
  }

  method CreateOrUpdateDatabase(r: Remote, id: string, admin: Login, database: string, owner: string, schema: string,
                                template: string)
    returns (ok: bool)
    requires r.Valid()
    modifies r
    ensures r.Grew() && r.clock == old(r.clock)
    ensures forall i :: |old(r.trace)| <= i < |r.trace| ==>
              && OpAct(r.history[i], r.trace[i], id, admin, SyncDatabase(database, owner, schema, template))
              && SchemaFollowsCreate(r.trace, |old(r.trace)|, i)
              && (r.trace[i].Sql? && database in ServerOf(old(r.world), id).databases ==>
                  r.trace[i].stmt.AlterDatabaseOwner?)
    ensures ok ==> var s := ServerOf(old(r.world), id);
                   && CanSyncDatabase(s, database, owner, template)
                   && ServerOf(r.world, id).databases
                      == s.databases[database := DatabaseAfter(s, database, owner, schema, template)]
    ensures r.Calm(old(r.calls)) ==>
              ok == (id in old(r.world.servers) && CanConnect(old(r.world.servers)[id], On(admin, DEFAULT_DB))
                     && CanSyncDatabase(old(r.world.servers)[id], database, owner, template))
    ensures r.Calm(old(r.calls)) ==>
              r.world == if ok then WithDatabase(old(r.world), id, database,
                                                 DatabaseAfter(old(r.world.servers)[id], database, owner, schema,
                                                               template))
                         else old(r.world)
  {
    hide Perform, Disturb, Replayed;
    var conn := On(admin, DEFAULT_DB);
    OthersKeepCatalogs(r.world, r.OthersAt(r.calls), id);
    var s := r.Query(id, conn);
    if s.None? {
      return false;
    }
    OthersKeepCatalogs(r.world, r.OthersAt(r.calls), id);
    if database in s.value.databases {
      ok := r.Exec(id, conn, AlterDatabaseOwner(database, owner));
      return;
    }
    ok := CreateNewDatabase(r, id, admin, database, owner, schema, template);
  }

  function WithoutDatabase(s: Server, database: string): Server {
    s.(databases := map d | d in s.databases && d != database :: s.databases[d])
  }

  /** The server said that it dropped the database, or that there is none. */
  ghost predicate DropConfirmed(w: World, act: Act, id: string, database: string) {
    match act
    case Sql(id', c, stmt, o) => id' == id && o == Acked && stmt == DropDatabase(database) && Accepted(w, id, c, stmt)
    case Catalog(id', c, o) =>
      && id' == id && o == Acked && id in w.servers && CanConnect(w.servers[id], c)
      && database !in w.servers[id].databases
    case _ => false
  }

  lemma ConnectedToADatabase(s: Server, c: Conn)
    ensures CanConnect(s, c) ==> c.database in s.databases
  {
  }

  /** The check and the drop. */
  method DropIfThere(r: Remote, id: string, admin: Login, database: string) returns (ok: bool)
    requires r.Valid()
    modifies r
    ensures r.Grew() && r.clock == old(r.clock)
    ensures forall i :: |old(r.trace)| <= i < |r.trace| ==>
              OpAct(r.history[i], r.trace[i], id, admin, DeleteDb(database))
    ensures ok ==> ServerOf(r.world, id).databases == WithoutDatabase(ServerOf(old(r.world), id), database).databases
    ensures r.Calm(old(r.calls)) ==>
              ok == (id in old(r.world.servers) && CanConnect(old(r.world.servers)[id], On(admin, DEFAULT_DB))
                     && database != DEFAULT_DB)
    ensures r.Calm(old(r.calls)) ==>
              r.world == if ok then SetServer(old(r.world), id, WithoutDatabase(old(r.world.servers)[id], database))
                         else old(r.world)
    ensures database == DEFAULT_DB ==> !ok
    // Success rests on a confirmation by the server, the last thing it says.
    ensures ok ==>
              |r.trace| > |old(r.trace)|
              && DropConfirmed(r.history[|r.trace| - 1], r.trace[|r.trace| - 1], id, database)
  {
    hide Perform, Disturb, Replayed, CanConnect;
    var conn := On(admin, DEFAULT_DB);
    OthersKeepCatalogs(r.world, r.OthersAt(r.calls), id);
    var s := r.Query(id, conn);
    if s.None? {
      return false;
    }
    ConnectedToADatabase(s.value, conn);
    if database !in s.value.databases {
      assert s.value == WithoutDatabase(s.value, database);
      return true;
    }
    OthersKeepCatalogs(r.world, r.OthersAt(r.calls), id);
    ok := r.Exec(id, conn, DropDatabase(database));
  }

  method DeleteDatabase(r: Remote, id: string, admin: Login, database: string) returns (ok: bool)
    requires r.Valid()
    modifies r
    ensures r.Grew() && r.clock == old(r.clock)
    ensures forall i :: |old(r.trace)| <= i < |r.trace| ==>
              OpAct(r.history[i], r.trace[i], id, admin, DeleteDb(database))
    ensures ok ==> ServerOf(r.world, id).databases == WithoutDatabase(ServerOf(old(r.world), id), database).databases
    ensures r.Calm(old(r.calls)) ==>
              ok == (id in old(r.world.servers) && CanConnect(old(r.world.servers)[id], On(admin, DEFAULT_DB))
                     && database != DEFAULT_DB)
    ensures r.Calm(old(r.calls)) ==>
              r.world == if ok then SetServer(old(r.world), id, WithoutDatabase(old(r.world.servers)[id], database))
                         else old(r.world)
    ensures database == DEFAULT_DB ==> !ok
    // Success rests on a confirmation by the server, the last thing it says.
    ensures ok ==>
              |r.trace| > |old(r.trace)|
              && DropConfirmed(r.history[|r.trace| - 1], r.trace[|r.trace| - 1], id, database)
  {
    hide Perform, Disturb, Replayed, CanConnect, WithoutDatabase, DropConfirmed;
    OthersKeepCatalogs(r.world, r.OthersAt(r.calls), id);
    ok := r.Exec(id, On(admin, DEFAULT_DB), TerminateSessions(database));
    if !ok {
      return;
    }
    SameWithout(ServerOf(r.world, id), ServerOf(r.history[|old(r.trace)|], id), database);
    ok := DropIfThere(r, id, admin, database);
  }

  lemma SameWithout(s: Server, t: Server, database: string)
    requires s.databases == t.databases
    ensures WithoutDatabase(s, database).databases == WithoutDatabase(t, database).databases
  {
  }

  // ---------------------------------------------------------------------- grants

  function Filter(grants: seq<GrantItem>, database: bool): seq<GrantItem> {
    if grants == [] then []
    else (if grants[0].kind.Database? == database then [grants[0]] else []) + Filter(grants[1..], database)
  }

  lemma {:induction false} FilterSplits(grants: seq<GrantItem>, g: GrantItem, database: bool)
    ensures Filter(grants + [g], database)
            == Filter(grants, database) + (if g.kind.Database? == database then [g] else [])
  {
    if grants == [] {
      assert grants + [g] == [g];
    } else {
      assert (grants + [g])[1..] == grants[1..] + [g];
      FilterSplits(grants[1..], g, database);
    }
  }

  lemma {:induction false} FilterSelects(grants: seq<GrantItem>, g: GrantItem, database: bool)
    ensures g in Filter(grants, database) <==> g in grants && g.kind.Database? == database
  {
    if grants != [] {
      FilterSelects(grants[1..], g, database);
      assert g in grants <==> g == grants[0] || g in grants[1..];
    }
  }

  /** The split keeps every item, on exactly one side, as often as it occurs. */
  lemma {:induction false} FilterPartitions(grants: seq<GrantItem>)
    ensures multiset(Filter(grants, true)) + multiset(Filter(grants, false)) == multiset(grants)
  {
    if grants != [] {
      FilterPartitions(grants[1..]);
      var head, t, f := [grants[0]], Filter(grants[1..], true), Filter(grants[1..], false);
      assert grants == head + grants[1..];
      assert multiset(grants) == multiset(head) + multiset(grants[1..]);
      if grants[0].kind.Database? {
        assert Filter(grants, true) == head + t && Filter(grants, false) == [] + f;
        assert multiset(head + t) == multiset(head) + multiset(t);
        assert [] + f == f;
      } else {
        assert Filter(grants, false) == head + f && Filter(grants, true) == [] + t;
        assert multiset(head + f) == multiset(head) + multiset(f);
        assert [] + t == t;
      }
    }
  }

  method SplitGrants(grants: seq<GrantItem>) returns (databaseGrants: seq<GrantItem>, otherGrants: seq<GrantItem>)
    ensures databaseGrants == Filter(grants, true) && otherGrants == Filter(grants, false)
  {
    databaseGrants, otherGrants := [], [];
    for k := 0 to |grants|
      invariant databaseGrants == Filter(grants[..k], true) && otherGrants == Filter(grants[..k], false)
    {
      assert grants[..k + 1] == grants[..k] + [grants[k]];
      FilterSplits(grants[..k], grants[k], true);
      FilterSplits(grants[..k], grants[k], false);
      if grants[k].kind.Database? {
        databaseGrants := databaseGrants + [grants[k]];
      } else {
        otherGrants := otherGrants + [grants[k]];
      }
    }
    assert grants[..|grants|] == grants;
  }

  /** The server, having read the text, grants what the item means. */
  lemma DatabaseItemMeans(g: GrantItem, database: string, role: string)
    requires g.kind.Database? && ArePrivileges(g.privileges)
    ensures ReadStatement(DatabaseStmt(g, database, role).text)
            == Some(Statement(g.privileges, OnDatabase(CutNul(database)), CutNul(role)))
    ensures Gains(DatabaseStmt(g, database, role), DEFAULT_DB) == ItemPrivileges(g, database, role)
    ensures GrantsTo(DatabaseStmt(g, database, role), role)
  {
    DatabaseGrantRoundTrip(g, database, role);
  }

  lemma OtherItemMeans(g: GrantItem, database: string, role: string)
    requires ArePrivileges(g.privileges) && OtherStmt(g, role).Some?
    ensures Gains(OtherStmt(g, role).value, database) == ItemPrivileges(g, database, role)
    ensures GrantsTo(OtherStmt(g, role).value, role)
  {
    PrinterSucceedsIff(g, QuoteIdentifier(role));
    GrantRoundTrip(g, role);
  }

  lemma FutureItemMeans(p: DefaultPrivilege, database: string, role: string)
    requires ArePrivileges(p.privileges) && FutureStmt(p, role).Some?
    ensures Gains(FutureStmt(p, role).value, database) == DefaultPrivileges(p, database, role)
    ensures GrantsTo(FutureStmt(p, role).value, role)
  {
    DefaultPrivilegeRoundTrip(p, role);
  }

  /** What the text of a grant adds in a session of `database`. */
  function Gains(stmt: Stmt, database: string): set<Privilege> {
    if !stmt.GrantQuery? then {}
    else match ReadStatement(stmt.text)
         case None => {}
         case Some(st) => Granted(database, st)
  }

  lemma GrantTakesEffect(s: Server, database: string, stmt: Stmt)
    requires stmt.GrantQuery?
    ensures var t := Apply(s, database, stmt);
            t.Some? ==> t.value == s.(privileges := s.privileges + Gains(stmt, database))
  {
  }

  /** Privileges held at s are still held at t. */
  ghost predicate Keeps(s: Server, t: Server) {
    s.privileges <= t.privileges
  }

  lemma DatabaseItemIssues(op: PgOp, g: GrantItem, admin: Login)
    requires op.SyncGrants? && g in op.grants && g.kind.Database?
    ensures forall s :: Issues(op, s, On(admin, DEFAULT_DB), DatabaseStmt(g, op.database, op.role))
  {
    hide DatabaseStmt, OtherStmt, FutureStmt;
  }

  /** A statement for an item exists exactly if the item is complete. */
  lemma OtherItemIssues(op: PgOp, g: GrantItem, admin: Login)
    requires op.SyncGrants? && g in op.grants && !g.kind.Database?
    ensures var stmt := OtherStmt(g, op.role);
            && (stmt.Some? <==> Complete(g))
            && (stmt.Some? ==> forall s :: Issues(op, s, On(admin, op.database), stmt.value))
  {
    PrinterSucceedsIff(g, QuoteIdentifier(op.role));
    hide DatabaseStmt, FutureStmt, BuildGrantQuery;
  }

  lemma FutureItemIssues(op: PgOp, p: DefaultPrivilege, admin: Login)
    requires op.SyncGrants? && p in op.defaults
    ensures var stmt := FutureStmt(p, op.role);
            && (stmt.Some? <==> !p.objectType.OtherObjects?)
            && (stmt.Some? ==> forall s :: Issues(op, s, On(admin, op.database), stmt.value))
  {
    DefaultPrivilegeRoundTrip(p, op.role);
    hide DatabaseStmt, OtherStmt, DefaultPrivilegeQuery;
  }

  /** The administrator can get into both databases, the role exists, and the server can read the privileges. */
  ghost predicate OpenTo(w: World, id: string, admin: Login, op: PgOp)
    requires op.SyncGrants?
  {
    && LetsIn(w, id, admin) && CanConnect(w.servers[id], On(admin, op.database))
    && CutNul(op.role) in w.servers[id].roles && Readable(op)
  }

  /** No item is incomplete or of an unknown type. */
  ghost predicate AllKnown(op: PgOp)
    requires op.SyncGrants?
  {
    && (forall g :: g in op.grants ==> g.kind.Database? || Complete(g))
    && (forall p :: p in op.defaults ==> !p.objectType.OtherObjects?)
  }

  /** The server can read the text, and it is about this role. */
  predicate GrantsTo(stmt: Stmt, role: string) {
    stmt.GrantQuery? && ReadStatement(stmt.text).Some? && ReadStatement(stmt.text).value.role == CutNul(role)
  }

  lemma OpenIsReadable(w: World, id: string, admin: Login, op: PgOp)
    requires op.SyncGrants?
    ensures OpenTo(w, id, admin, op) ==> Readable(op)
  {
  }

  lemma GrantIsAccepted(w: World, id: string, admin: Login, op: PgOp, database: string, stmt: Stmt)
    requires op.SyncGrants? && OpenTo(w, id, admin, op) && GrantsTo(stmt, op.role)
             && database in {DEFAULT_DB, op.database}
    ensures Accepted(w, id, On(admin, database), stmt)
    ensures OpenTo(SetServer(w, id, Apply(w.servers[id], database, stmt).value), id, admin, op)
  {
    hide ReadStatement, Readable;
  }

  method RunGrant(r: Remote, id: string, admin: Login, database: string, stmt: Stmt, ghost op: PgOp) returns (ok: bool)
    requires r.Valid() && stmt.GrantQuery?
    requires forall s :: Issues(op, s, On(admin, database), stmt)
    modifies r
    ensures r.Grew() && r.clock == old(r.clock)
    ensures forall i :: |old(r.trace)| <= i < |r.trace| ==> OpAct(r.history[i], r.trace[i], id, admin, op)
    ensures Keeps(ServerOf(old(r.world), id), ServerOf(r.world, id))
    ensures ok ==> Gains(stmt, database) <= ServerOf(r.world, id).privileges
    ensures op.SyncGrants? && database in {DEFAULT_DB, op.database} && GrantsTo(stmt, op.role) ==>
              (r.Calm(old(r.calls)) && OpenTo(old(r.world), id, admin, op) ==> ok && OpenTo(r.world, id, admin, op))
  {
    hide Perform, Disturb, Replayed, Apply, CanConnect, Issues, Gains, OpenTo, GrantsTo;
    OthersKeepCatalogs(r.world, r.OthersAt(r.calls), id);
    if op.SyncGrants? && OpenTo(r.world, id, admin, op) && GrantsTo(stmt, op.role)
       && database in {DEFAULT_DB, op.database} {
      GrantIsAccepted(r.world, id, admin, op, database, stmt);
    }
    GrantTakesEffect(ServerOf(r.Met(), id), database, stmt);
    ok := r.Exec(id, On(admin, database), stmt);
  }

  method Ping(r: Remote, id: string, admin: Login, database: string, ghost op: PgOp) returns (ok: bool)
    requires r.Valid()
    modifies r
    ensures r.Grew() && r.clock == old(r.clock)
    ensures forall i :: |old(r.trace)| <= i < |r.trace| ==> OpAct(r.history[i], r.trace[i], id, admin, op)
    ensures Keeps(ServerOf(old(r.world), id), ServerOf(r.world, id))
    ensures op.SyncGrants? && database in {DEFAULT_DB, op.database} ==>
              (r.Calm(old(r.calls)) && OpenTo(old(r.world), id, admin, op) ==> ok && r.world == old(r.world))
  {
    hide Perform, Disturb, Replayed, Issues, Readable;
    OthersKeepCatalogs(r.world, r.OthersAt(r.calls), id);
    var s := r.Query(id, On(admin, database));
    ok := s.Some?;
  }

  method ApplyDatabaseGrants(r: Remote, id: string, admin: Login, items: seq<GrantItem>, op: PgOp) returns (ok: bool)
    requires r.Valid() && op.SyncGrants? && items == Filter(op.grants, true)
    modifies r
    ensures r.Grew() && r.clock == old(r.clock)
    ensures forall i :: |old(r.trace)| <= i < |r.trace| ==> OpAct(r.history[i], r.trace[i], id, admin, op)
    ensures Keeps(ServerOf(old(r.world), id), ServerOf(r.world, id))
    ensures ok && Readable(op) ==>
              forall g :: g in items ==> ItemPrivileges(g, op.database, op.role) <= ServerOf(r.world, id).privileges
    ensures r.Calm(old(r.calls)) && OpenTo(old(r.world), id, admin, op) ==> ok && OpenTo(r.world, id, admin, op)
  {
    hide Perform, Disturb, Replayed, OpAct, Issues, Apply, ItemPrivileges, Gains, DatabaseStmt, Filter, OpenTo,
         GrantsTo;
    ghost var t0 := |r.trace|;
    ok := Ping(r, id, admin, DEFAULT_DB, op);
    if !ok {
      return;
    }
    for k := 0 to |items|
      invariant ok && r.Grew() && r.clock == old(r.clock)
      invariant forall i :: t0 <= i < |r.trace| ==> OpAct(r.history[i], r.trace[i], id, admin, op)
      invariant Keeps(ServerOf(old(r.world), id), ServerOf(r.world, id))
      invariant r.Calm(old(r.calls)) && OpenTo(old(r.world), id, admin, op) ==> OpenTo(r.world, id, admin, op)
      invariant Readable(op) ==> forall j :: 0 <= j < k ==>
                  ItemPrivileges(items[j], op.database, op.role) <= ServerOf(r.world, id).privileges
    {
      OpenIsReadable(r.world, id, admin, op);
      FilterSelects(op.grants, items[k], true);
      DatabaseItemIssues(op, items[k], admin);
      if Readable(op) {
        DatabaseItemMeans(items[k], op.database, op.role);
      }
      ok := RunGrant(r, id, admin, DEFAULT_DB, DatabaseStmt(items[k], op.database, op.role), op);
      if !ok {
        return;
      }
    }
  }

  /** The items that are not about a database, in order; the printer refuses incomplete ones. */
  method ApplyOtherItems(r: Remote, id: string, admin: Login, items: seq<GrantItem>, op: PgOp) returns (ok: bool)
    requires r.Valid() && op.SyncGrants? && items == Filter(op.grants, false)
    modifies r
    ensures r.Grew() && r.clock == old(r.clock)
    ensures forall i :: |old(r.trace)| <= i < |r.trace| ==> OpAct(r.history[i], r.trace[i], id, admin, op)
    ensures Keeps(ServerOf(old(r.world), id), ServerOf(r.world, id))
    ensures ok && Readable(op) ==>
              forall g :: g in items ==> ItemPrivileges(g, op.database, op.role) <= ServerOf(r.world, id).privileges
    ensures ok ==> forall g :: g in items ==> Complete(g)
    ensures r.Calm(old(r.calls)) && OpenTo(old(r.world), id, admin, op) && AllKnown(op) ==>
              ok && OpenTo(r.world, id, admin, op)
  {
    hide Perform, Disturb, Replayed, OpAct, Issues, Apply, ItemPrivileges, Gains, OtherStmt, Filter, Complete, OpenTo,
         GrantsTo;
    ghost var t0 := |r.trace|;
    ok := true;
    for k := 0 to |items|
      invariant ok && r.Grew() && r.clock == old(r.clock)
      invariant forall i :: t0 <= i < |r.trace| ==> OpAct(r.history[i], r.trace[i], id, admin, op)
      invariant Keeps(ServerOf(old(r.world), id), ServerOf(r.world, id))
      invariant r.Calm(old(r.calls)) && OpenTo(old(r.world), id, admin, op) && AllKnown(op) ==>
                  OpenTo(r.world, id, admin, op)
      invariant Readable(op) ==> forall j :: 0 <= j < k ==>
                  ItemPrivileges(items[j], op.database, op.role) <= ServerOf(r.world, id).privileges
      invariant forall j :: 0 <= j < k ==> Complete(items[j])
    {
      OpenIsReadable(r.world, id, admin, op);
      FilterSelects(op.grants, items[k], false);
      OtherItemIssues(op, items[k], admin);
      var stmt := OtherStmt(items[k], op.role);
      if stmt.None? {
        return false;
      }
      if Readable(op) {
        OtherItemMeans(items[k], op.database, op.role);
      }
      ok := RunGrant(r, id, admin, op.database, stmt.value, op);
      if !ok {
        return;
      }
    }
  }

  method ApplyDefaultPrivileges(r: Remote, id: string, admin: Login, op: PgOp) returns (ok: bool)
    requires r.Valid() && op.SyncGrants?
    modifies r
    ensures r.Grew() && r.clock == old(r.clock)
    ensures forall i :: |old(r.trace)| <= i < |r.trace| ==> OpAct(r.history[i], r.trace[i], id, admin, op)
    ensures Keeps(ServerOf(old(r.world), id), ServerOf(r.world, id))
    ensures ok && Readable(op) ==>
              var s := ServerOf(r.world, id);
              forall p :: p in op.defaults ==> DefaultPrivileges(p, op.database, op.role) <= s.privileges
    ensures ok ==> forall p :: p in op.defaults ==> !p.objectType.OtherObjects?
    ensures r.Calm(old(r.calls)) && OpenTo(old(r.world), id, admin, op) && AllKnown(op) ==> ok
  {
    hide Perform, Disturb, Replayed, OpAct, Issues, Apply, DefaultPrivileges, Gains, FutureStmt, OpenTo, GrantsTo;
    ghost var t0 := |r.trace|;
    ok := true;
    for k := 0 to |op.defaults|
      invariant ok && r.Grew() && r.clock == old(r.clock)
      invariant forall i :: t0 <= i < |r.trace| ==> OpAct(r.history[i], r.trace[i], id, admin, op)
      invariant Keeps(ServerOf(old(r.world), id), ServerOf(r.world, id))
      invariant r.Calm(old(r.calls)) && OpenTo(old(r.world), id, admin, op) && AllKnown(op) ==>
                  OpenTo(r.world, id, admin, op)
      invariant Readable(op) ==> forall j :: 0 <= j < k ==>
                  DefaultPrivileges(op.defaults[j], op.database, op.role) <= ServerOf(r.world, id).privileges
      invariant forall j :: 0 <= j < k ==> !op.defaults[j].objectType.OtherObjects?
    {
      OpenIsReadable(r.world, id, admin, op);
      FutureItemIssues(op, op.defaults[k], admin);
      var stmt := FutureStmt(op.defaults[k], op.role);
      if stmt.None? {
        return false;
      }
      if Readable(op) {
        FutureItemMeans(op.defaults[k], op.database, op.role);
      }
      ok := RunGrant(r, id, admin, op.database, stmt.value, op);
      if !ok {
        return;
      }
    }
  }

  method ApplyNonDatabaseGrants(r: Remote, id: string, admin: Login, items: seq<GrantItem>, op: PgOp) returns (ok: bool)
    requires r.Valid() && op.SyncGrants? && items == Filter(op.grants, false)
    modifies r
    ensures r.Grew() && r.clock == old(r.clock)
    ensures forall i :: |old(r.trace)| <= i < |r.trace| ==> OpAct(r.history[i], r.trace[i], id, admin, op)
    ensures Keeps(ServerOf(old(r.world), id), ServerOf(r.world, id))
    ensures ok ==> OthersGranted(op, ServerOf(r.world, id))
    ensures r.Calm(old(r.calls)) && OpenTo(old(r.world), id, admin, op) && AllKnown(op) ==> ok
  {
    hide Perform, Disturb, Replayed, OpAct, ItemPrivileges, DefaultPrivileges, OpenTo, AllKnown;
    ok := Ping(r, id, admin, op.database, op);
    if !ok {
      return;
    }
    ok := ApplyOtherItems(r, id, admin, items, op);
    if !ok {
      return;
    }
    ok := ApplyDefaultPrivileges(r, id, admin, op);
  }

  ghost predicate OthersGranted(op: PgOp, s: Server)
    requires op.SyncGrants?
  {
    && (forall g :: g in Filter(op.grants, false) ==> Complete(g))
    && (forall p :: p in op.defaults ==> !p.objectType.OtherObjects?)
    && (Readable(op) ==>
        && (forall g :: g in Filter(op.grants, false) ==> ItemPrivileges(g, op.database, op.role) <= s.privileges)
        && (forall p :: p in op.defaults ==> DefaultPrivileges(p, op.database, op.role) <= s.privileges))
  }

  method ApplyGrants(r: Remote, id: string, admin: Login, op: PgOp) returns (ok: bool)
    requires r.Valid() && op.SyncGrants?
    modifies r
    ensures r.Grew() && r.clock == old(r.clock)
    ensures forall i :: |old(r.trace)| <= i < |r.trace| ==> OpAct(r.history[i], r.trace[i], id, admin, op)
    ensures Keeps(ServerOf(old(r.world), id), ServerOf(r.world, id))
    ensures ok ==> Achieved(op, ServerOf(r.world, id))
    // Success also means that no item was incomplete or of an unknown type.
    ensures ok ==> (forall g :: g in op.grants ==> g.kind.Database? || Complete(g))
                   && (forall p :: p in op.defaults ==> !p.objectType.OtherObjects?)
    // Without faults it succeeds if the administrator can get in, the role exists and no item is incomplete or unknown.
    ensures r.Calm(old(r.calls)) && OpenTo(old(r.world), id, admin, op) && AllKnown(op) ==> ok
  {
    hide Perform, Disturb, Replayed, OpAct, Issues, ItemPrivileges, DefaultPrivileges, Filter, Complete, Achieved,
         Readable, OpenTo;
    var databaseGrants, otherGrants := SplitGrants(op.grants);
    ok := true;
    if |databaseGrants| > 0 {
      ok := ApplyDatabaseGrants(r, id, admin, databaseGrants, op);
      if !ok {
        return;
      }
    }
    ghost var middle := ServerOf(r.world, id);
    if |otherGrants| > 0 || |op.defaults| > 0 {
      ok := ApplyNonDatabaseGrants(r, id, admin, otherGrants, op);
    }
    if ok {
      AllGranted(op, middle, ServerOf(r.world, id));
    }
  }

  /** Both halves together are the whole request. */
  lemma AllGranted(op: PgOp, s: Server, t: Server)
    requires op.SyncGrants? && Keeps(s, t) && OthersGranted(op, t)
    requires Readable(op) ==>
              forall g :: g in Filter(op.grants, true) ==> ItemPrivileges(g, op.database, op.role) <= s.privileges
    ensures Achieved(op, t)
    ensures (forall g :: g in op.grants ==> g.kind.Database? || Complete(g))
            && (forall p :: p in op.defaults ==> !p.objectType.OtherObjects?)
  {
    hide ItemPrivileges, DefaultPrivileges, Complete, Filter;
    forall g | g in op.grants
      ensures g.kind.Database? || Complete(g)
      ensures Readable(op) ==> ItemPrivileges(g, op.database, op.role) <= t.privileges
    {
      FilterSelects(op.grants, g, g.kind.Database?);
    }
  }

  // ---------------------------------------------------------------------- retries

  /** What success of an attempt says about the server before and after it. */
  ghost predicate Succeeded(op: PgOp, s: Server, t: Server) {
    && Achieved(op, t)
    && (op.SyncDatabase? ==>
        CanSyncDatabase(s, op.database, op.owner, op.template)
        && t.databases == s.databases[op.database := DatabaseAfter(s, op.database, op.owner, op.schema, op.template)])
    && (op.DeleteDb? ==> t.databases == WithoutDatabase(s, op.database).databases)
  }

  /** The closure that the retry loop runs. */
  method Attempt(r: Remote, id: string, admin: Login, op: PgOp) returns (ok: bool)
    requires r.Valid()
    modifies r
    ensures r.Grew() && r.clock == old(r.clock)
    ensures forall i :: |old(r.trace)| <= i < |r.trace| ==> OpAct(r.history[i], r.trace[i], id, admin, op)
    ensures op.SyncDatabase? ==>
              forall i :: |old(r.trace)| <= i < |r.trace| ==> SchemaFollowsCreate(r.trace, |old(r.trace)|, i)
    ensures ok ==> Succeeded(op, ServerOf(old(r.world), id), ServerOf(r.world, id))
    ensures ok && op.SyncUser? ==>
              |r.trace| > |old(r.trace)|
              && UserAcknowledged(r.history[|r.trace| - 1], r.trace[|r.trace| - 1], id, op.username, op.password)
    ensures ok && op.DeleteDb? ==>
              |r.trace| > |old(r.trace)|
              && DropConfirmed(r.history[|r.trace| - 1], r.trace[|r.trace| - 1], id, op.database)
    ensures r.Calm(old(r.calls)) && Feasible(old(r.world), id, admin, op) ==> ok && Ends(old(r.world), id, op, r.world)
    ensures r.Calm(old(r.calls)) && IsExact(op) && !Feasible(old(r.world), id, admin, op) ==>
              !ok && r.world == old(r.world)
  {
    hide Perform, Disturb, Replayed, Apply, OpAct, Issues, Joinable;
    match op
    case SyncUser(u, p) => ok := CreateOrUpdateUser(r, id, admin, u, p);
    case SyncRoleGroup(g, wanted) => ok := CreateOrUpdateRoleGroup(r, id, admin, g, wanted);
    case SyncDatabase(d, o, schema, t) => ok := CreateOrUpdateDatabase(r, id, admin, d, o, schema, t);
    case DeleteDb(d) => ok := DeleteDatabase(r, id, admin, d);
    case SyncGrants(_, _, _, _) => ok := ApplyGrants(r, id, admin, op);
  }

  /** An undisturbed attempt succeeds. */
  ghost predicate Feasible(w: World, id: string, admin: Login, op: PgOp) {
    && id in w.servers
    && CanConnect(w.servers[id], On(admin, DEFAULT_DB))
    && match op
       case SyncUser(u, _) => u in w.servers[id].passwords || u !in w.servers[id].roles
       case SyncDatabase(d, o, _, t) => CanSyncDatabase(w.servers[id], d, o, t)
       case DeleteDb(d) => d != DEFAULT_DB
       case SyncRoleGroup(g, wanted) => Joinable(w.servers[id], g, wanted)
       case SyncGrants(_, _, _, _) => OpenTo(w, id, admin, op) && AllKnown(op)
  }

  /** Operations whose whole effect on the world is stated by `Ends`. */
  predicate IsExact(op: PgOp) {
    op.SyncUser? || op.SyncDatabase? || op.DeleteDb?
  }

  /** The world an undisturbed operation of these leaves. */
  ghost predicate Ends(w: World, id: string, op: PgOp, w': World) {
    match op
    case SyncUser(u, p) => id in w.servers && w' == WithUser(w, id, u, p)
    case SyncDatabase(d, o, schema, t) =>
      && id in w.servers && CanSyncDatabase(w.servers[id], d, o, t)
      && w' == WithDatabase(w, id, d, DatabaseAfter(w.servers[id], d, o, schema, t))
    case DeleteDb(d) => id in w.servers && w' == SetServer(w, id, WithoutDatabase(w.servers[id], d))
    case _ => true
  }

  lemma SchemaStillFollows(before: seq<Act>, after: seq<Act>, from: nat)
    requires before <= after && from <= |before|
    requires forall i :: from <= i < |before| ==> SchemaFollowsCreate(before, from, i)
    requires forall i :: |before| <= i < |after| ==> SchemaFollowsCreate(after, |before|, i)
    ensures forall i :: from <= i < |after| ==> SchemaFollowsCreate(after, from, i)
  {
    forall i | from <= i < |after|
      ensures SchemaFollowsCreate(after, from, i)
    {
      if i < |before| {
        assert SchemaFollowsCreate(before, from, i);
        assert after[i] == before[i] && (i >= 4 ==> after[i - 4] == before[i - 4]);
      } else {
        assert SchemaFollowsCreate(after, |before|, i);
      }
    }
  }

  /** The retry loop around every PostgreSQL operation. */
  method ExecuteOperationWithRetry(r: Remote, id: string, admin: Login, op: PgOp, retries: int, base: nat)
    returns (ok: bool)
    requires r.Valid()
    modifies r
    ensures r.Grew()
    ensures forall i :: |old(r.trace)| <= i < |r.trace| ==> OpAct(r.history[i], r.trace[i], id, admin, op)
    ensures op.SyncDatabase? ==>
              forall i :: |old(r.trace)| <= i < |r.trace| ==> SchemaFollowsCreate(r.trace, |old(r.trace)|, i)
    // Success means that one whole attempt succeeded, the last one, whatever earlier attempts half did.
    ensures ok ==> exists j :: |old(r.history)| - 1 <= j < |r.history|
                               && Succeeded(op, ServerOf(r.history[j], id), ServerOf(r.world, id))
    ensures ok && op.SyncUser? ==>
              |r.trace| > |old(r.trace)|
              && UserAcknowledged(r.history[|r.trace| - 1], r.trace[|r.trace| - 1], id, op.username, op.password)
    ensures ok && op.DeleteDb? ==>
              |r.trace| > |old(r.trace)|
              && DropConfirmed(r.history[|r.trace| - 1], r.trace[|r.trace| - 1], id, op.database)
    ensures r.Calm(old(r.calls)) && retries >= 1 && Feasible(old(r.world), id, admin, op) ==>
              ok && Ends(old(r.world), id, op, r.world)
    ensures r.Calm(old(r.calls)) && IsExact(op) && !Feasible(old(r.world), id, admin, op) ==>
              !ok && r.world == old(r.world)
    ensures retries < 1 ==> !ok
    ensures VaultStore.WaitsDefined(base, retries) ==>
              r.clock - old(r.clock) <= Backoff.MaxWait(base, VaultStore.Waits(retries))
  {
    hide Perform, Disturb, Replayed, OpAct, Issues, Succeeded, Feasible, Ends, DropConfirmed, UserAcknowledged,
         Backoff.Longest, Backoff.Defined;
    ok := false;
    var attempt, done := 1, false;
    ghost var t0, h0, c0 := |r.trace|, |r.history|, r.clock;
    while !done && attempt <= retries
      invariant 1 <= attempt && (attempt == 1 || attempt <= retries + 1)
      invariant r.Grew() && (done || attempt > 1 ==> retries >= 1)
      invariant forall i :: t0 <= i < |r.trace| ==> OpAct(r.history[i], r.trace[i], id, admin, op)
      invariant op.SyncDatabase? ==> forall i :: t0 <= i < |r.trace| ==> SchemaFollowsCreate(r.trace, t0, i)
      invariant ok ==>
                  done && exists j ::
                    h0 - 1 <= j < |r.history| && Succeeded(op, ServerOf(r.history[j], id), ServerOf(r.world, id))
      invariant ok && op.SyncUser? ==>
                  |r.trace| > t0
                  && UserAcknowledged(r.history[|r.trace| - 1], r.trace[|r.trace| - 1], id, op.username, op.password)
      invariant ok && op.DeleteDb? ==>
                  |r.trace| > t0 && DropConfirmed(r.history[|r.trace| - 1], r.trace[|r.trace| - 1], id, op.database)
      invariant !done && attempt == 1 ==> !ok && r.world == old(r.world) && r.calls == old(r.calls)
      invariant r.Calm(old(r.calls)) && IsExact(op) && !Feasible(old(r.world), id, admin, op) ==>
                  !ok && r.world == old(r.world)
      invariant r.Calm(old(r.calls)) && (done || attempt > 1) && Feasible(old(r.world), id, admin, op) ==>
                  ok && Ends(old(r.world), id, op, r.world)
      invariant VaultStore.WaitsDefined(base, retries) ==>
                  r.clock - c0
                  <= Backoff.MaxWait(base, if attempt <= retries then attempt - 1 else VaultStore.Waits(retries))
    {
      ghost var t, h, w := r.trace, r.history, r.world;
      ok := Attempt(r, id, admin, op);
      assert r.history[|h| - 1] == w;
      if op.SyncDatabase? {
        SchemaStillFollows(t, r.trace, t0);
      }
      if ok {
        done := true;
      } else {
        if attempt < retries {
          if VaultStore.WaitsDefined(base, retries) {
            Backoff.DefinedIsMonotone(base, attempt, retries - 1);
          }
          done := r.Pause(base, attempt);
        }
        attempt := attempt + 1;
      }
    }
    Backoff.MaxWaitIsMonotone(base, if attempt <= retries then attempt - 1 else VaultStore.Waits(retries),
                              VaultStore.Waits(retries));
  }

  /** The connection test: its own copy of the loop, around a probe query. */
  method TestConnection(r: Remote, id: string, login: Login, retries: int, base: nat) returns (connected: bool)
    requires r.Valid()
    modifies r
    ensures r.Grew()
    ensures forall i :: |old(r.trace)| <= i < |r.trace| ==> r.trace[i].Disturbed? || r.trace[i].Catalog?
    ensures connected ==>
              && id in r.world.servers && CanConnect(r.world.servers[id], On(login, DEFAULT_DB))
              && |r.trace| > |old(r.trace)| && r.trace[|r.trace| - 1] == Catalog(id, On(login, DEFAULT_DB), Acked)
    ensures r.Calm(old(r.calls)) ==> r.world == old(r.world)
    ensures r.Calm(old(r.calls)) ==>
              connected
              == (retries >= 1 && id in r.world.servers && CanConnect(r.world.servers[id], On(login, DEFAULT_DB)))
    ensures VaultStore.WaitsDefined(base, retries) ==>
              r.clock - old(r.clock) <= Backoff.MaxWait(base, VaultStore.Waits(retries))
  {
    hide Perform, Disturb, Replayed, CanConnect, Backoff.Longest, Backoff.Defined;
    connected := false;
    var attempt, done := 1, false;
    ghost var t0, c0 := |r.trace|, r.clock;
    while !done && attempt <= retries
      invariant 1 <= attempt && (attempt == 1 || attempt <= retries + 1)
      invariant r.Grew() && (done || attempt > 1 ==> retries >= 1)
      invariant forall i :: t0 <= i < |r.trace| ==> r.trace[i].Disturbed? || r.trace[i].Catalog?
      invariant connected ==> done && id in r.world.servers && CanConnect(r.world.servers[id], On(login, DEFAULT_DB))
      invariant connected ==> |r.trace| > t0 && r.trace[|r.trace| - 1] == Catalog(id, On(login, DEFAULT_DB), Acked)
      invariant r.Calm(old(r.calls)) ==> r.world == old(r.world)
      invariant r.Calm(old(r.calls)) ==>
                  connected
                  == ((done || attempt > 1) && id in r.world.servers
                      && CanConnect(r.world.servers[id], On(login, DEFAULT_DB)))
      invariant VaultStore.WaitsDefined(base, retries) ==>
                  r.clock - c0
                  <= Backoff.MaxWait(base, if attempt <= retries then attempt - 1 else VaultStore.Waits(retries))
    {
      var s := r.Query(id, On(login, DEFAULT_DB));
      connected := s.Some?;
      if connected {
        done := true;
      } else {
        if attempt < retries {
          if VaultStore.WaitsDefined(base, retries) {
            Backoff.DefinedIsMonotone(base, attempt, retries - 1);
          }
          done := r.Pause(base, attempt);
        }
        attempt := attempt + 1;
      }
    }
    Backoff.MaxWaitIsMonotone(base, if attempt <= retries then attempt - 1 else VaultStore.Waits(retries),
                              VaultStore.Waits(retries));
  }
}
