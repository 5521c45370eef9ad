/**
 What the PostgreSQL operations guarantee over whole runs: any number of attempts, each of which may stop anywhere,
 interleaved with the acts of others. A run is a sequence of states with the acts between them.
 */
module DesiredState {
  import opened Basics
  import opened Cluster
  import opened PostgresOps
  import opened GrantSql

  /**
   A stretch of a run in which the operator only does what `op` allows. Every call of the retry loop yields one,
   whatever came before it.
   */
  ghost predicate OpWindow(h: seq<World>, t: seq<Act>, from: nat, upto: nat, id: string, admin: Login, op: PgOp) {
    && Replayed(h, t) && |h| == |t| + 1 && from <= upto <= |t|
    && forall i :: from <= i < upto ==> OpAct(h[i], t[i], id, admin, op)
  }

  /** The effect on the server of an act of the operation: none, or that of one of its own statements. */
  lemma ActEffect(w: World, act: Act, id: string, admin: Login, op: PgOp)
    requires OpAct(w, act, id, admin, op)
    ensures var s, t := ServerOf(w, id), ServerOf(Perform(w, act), id);
            || SameCatalogs(s, t)
            || (act.Sql? && Issues(op, s, act.conn, act.stmt) && Apply(s, act.conn.database, act.stmt).Some?
                && t == Apply(s, act.conn.database, act.stmt).value)
  {
    hide Apply, Issues, Disturb;
    match act
    case Disturbed(a) => OthersKeepCatalogs(w, a, id);
    case Sql(_, c, stmt, o) => StatementsTakeEffect(w, id, c, stmt, o);
    case Catalog(_, _, _) => ReadsChangeNothing(w, act);
  }

  // ----------------------------------------------------------------- role groups

  /** Members that should not be there, and existing desired roles that are missing. */
  function Gap(s: Server, group: string, wanted: seq<string>): set<string> {
    (Members(s, group) - Existing(s, wanted)) + (Existing(s, wanted) - Members(s, group))
  }

  /** One act: the gap never grows, and every effective GRANT or REVOKE makes it strictly smaller. */
  lemma GapShrinks(w: World, act: Act, id: string, admin: Login, group: string, wanted: seq<string>)
    requires OpAct(w, act, id, admin, SyncRoleGroup(group, wanted)) && group in ServerOf(w, id).roles
    ensures var s, t := ServerOf(w, id), ServerOf(Perform(w, act), id);
            && t.roles == s.roles
            && Gap(t, group, wanted) <= Gap(s, group, wanted)
            && (Members(t, group) != Members(s, group) ==> Gap(t, group, wanted) < Gap(s, group, wanted))
            && Members(s, group) * Existing(s, wanted) <= Members(t, group) <= Members(s, group) + Existing(s, wanted)
  {
    hide Perform, Disturb, OpAct, Apply;
    ActEffect(w, act, id, admin, SyncRoleGroup(group, wanted));
    var s, t := ServerOf(w, id), ServerOf(Perform(w, act), id);
    if SameCatalogs(s, t) {
    } else {
      match act.stmt
      case GrantRole(_, m) => GrantEffect(s, act.conn.database, group, m);
      case RevokeRole(_, m) => RevokeEffect(s, act.conn.database, group, m);
      case CreateRole(_) => RoleExists(s, act.conn.database, group);
    }
  }

  lemma RoleExists(s: Server, database: string, group: string)
    requires group in s.roles
    ensures Apply(s, database, CreateRole(group)).None?
  {
  }

  /**
   Any stretch of a run on a role group whose role exists: progress is monotone, and every state lies between what was
   right at the start and what is or will be there.
   */
  lemma {:induction false} RoleGroupProgress(h: seq<World>, t: seq<Act>, from: nat, upto: nat, id: string, admin: Login,
                                             group: string, wanted: seq<string>)
    requires OpWindow(h, t, from, upto, id, admin, SyncRoleGroup(group, wanted)) && group in ServerOf(h[from], id).roles
    ensures var s, e := ServerOf(h[from], id), ServerOf(h[upto], id);
            && e.roles == s.roles
            && Gap(e, group, wanted) <= Gap(s, group, wanted)
            && Members(s, group) * Existing(s, wanted) <= Members(e, group) <= Members(s, group) + Existing(s, wanted)
    decreases upto
  {
    if from < upto {
      hide Perform, OpAct, Members, Gap, Replayed;
      RoleGroupProgress(h, t, from, upto - 1, id, admin, group, wanted);
      ReplayedAt(h, t, upto - 1);
      GapShrinks(h[upto - 1], t[upto - 1], id, admin, group, wanted);
      SameExisting(ServerOf(h[from], id), ServerOf(h[upto - 1], id), wanted);
    }
  }

  lemma SameExisting(s: Server, t: Server, wanted: seq<string>)
    requires s.roles == t.roles
    ensures Existing(s, wanted) == Existing(t, wanted)
  {
  }

  /** Success is exactly an empty gap. */
  lemma AchievedIffNoGap(s: Server, group: string, wanted: seq<string>)
    requires group in s.roles
    ensures Achieved(SyncRoleGroup(group, wanted), s) <==> Gap(s, group, wanted) == {}
  {
    var m, e := Members(s, group), Existing(s, wanted);
    if Gap(s, group, wanted) == {} {
      assert forall x :: x in m ==> x in e || x in Gap(s, group, wanted);
      assert forall x :: x in e ==> x in m || x in Gap(s, group, wanted);
    }
  }

  // ---------------------------------------------------------------------- grants

  /** One act of a grant synchronisation only adds privileges, and only wanted ones. */
  lemma GrantsOnlyAdd(w: World, act: Act, id: string, admin: Login, op: PgOp)
    requires op.SyncGrants? && Readable(op) && OpAct(w, act, id, admin, op)
    ensures var s, t := ServerOf(w, id), ServerOf(Perform(w, act), id);
            s.privileges <= t.privileges <= s.privileges + Wanted(op)
  {
    hide Perform, Disturb, OpAct, Apply, ItemPrivileges, DefaultPrivileges, DatabaseStmt, OtherStmt, FutureStmt, Gains;
    ActEffect(w, act, id, admin, op);
    var s, t := ServerOf(w, id), ServerOf(Perform(w, act), id);
    if !SameCatalogs(s, t) {
      var stmt, d := act.stmt, act.conn.database;
      GrantTakesEffect(s, d, stmt);
      if g :| g in op.grants && g.kind.Database? && stmt == DatabaseStmt(g, op.database, op.role) && d == DEFAULT_DB {
        DatabaseItemMeans(g, op.database, op.role);
        assert forall p :: p in Gains(stmt, d) ==> p in ItemPrivileges(g, op.database, op.role);
      } else if g :| g in op.grants && !g.kind.Database? && Some(stmt) == OtherStmt(g, op.role) && d == op.database {
        OtherItemMeans(g, op.database, op.role);
        assert forall p :: p in Gains(stmt, d) ==> p in ItemPrivileges(g, op.database, op.role);
      } else {
        var p :| p in op.defaults && Some(stmt) == FutureStmt(p, op.role) && d == op.database;
        FutureItemMeans(p, op.database, op.role);
        assert forall q :: q in Gains(stmt, d) ==> q in DefaultPrivileges(p, op.database, op.role);
      }
    }
  }

  /** Whatever failed attempts half did, success means exactly the old privileges and the wanted ones. */
  lemma {:induction false} GrantsAreExact(h: seq<World>, t: seq<Act>, from: nat, upto: nat, id: string, admin: Login,
                                          op: PgOp)
    requires op.SyncGrants? && Readable(op) && OpWindow(h, t, from, upto, id, admin, op)
    ensures var s, e := ServerOf(h[from], id), ServerOf(h[upto], id);
            && s.privileges <= e.privileges <= s.privileges + Wanted(op)
            && (Achieved(op, e) <==> e.privileges == s.privileges + Wanted(op))
    decreases upto
  {
    if from < upto {
      hide Perform, OpAct, Wanted, Replayed;
      GrantsAreExact(h, t, from, upto - 1, id, admin, op);
      ReplayedAt(h, t, upto - 1);
      GrantsOnlyAdd(h[upto - 1], t[upto - 1], id, admin, op);
    }
  }

  /**
   Two servers with the same privileges, synchronised in any number of attempts with the same items in different orders
   and with different repetitions, end with the same privileges.
   */
  lemma OrderDoesNotMatter(h: seq<World>, t: seq<Act>, from: nat, upto: nat, op: PgOp,
                           h': seq<World>, t': seq<Act>, from': nat, upto': nat, op': PgOp, id: string, admin: Login)
    requires op.SyncGrants? && Readable(op) && OpWindow(h, t, from, upto, id, admin, op)
    requires op'.SyncGrants? && Readable(op') && OpWindow(h', t', from', upto', id, admin, op')
    requires op.database == op'.database && op.role == op'.role
    requires (forall g :: g in op.grants <==> g in op'.grants) && (forall d :: d in op.defaults <==> d in op'.defaults)
    requires ServerOf(h[from], id).privileges == ServerOf(h'[from'], id).privileges
    requires Achieved(op, ServerOf(h[upto], id)) && Achieved(op', ServerOf(h'[upto'], id))
    ensures ServerOf(h[upto], id).privileges == ServerOf(h'[upto'], id).privileges
  {
    hide OpWindow, Wanted, Achieved, Readable;
    GrantsAreExact(h, t, from, upto, id, admin, op);
    GrantsAreExact(h', t', from', upto', id, admin, op');
    WantedIgnoresOrder(op, op');
  }

  /** The order of the items in the spec does not matter, nor do repetitions. */
  lemma WantedIgnoresOrder(op: PgOp, op': PgOp)
    requires op.SyncGrants? && op'.SyncGrants? && op.database == op'.database && op.role == op'.role
    requires forall g :: g in op.grants <==> g in op'.grants
    requires forall d :: d in op.defaults <==> d in op'.defaults
    ensures Wanted(op) == Wanted(op')
  {
    hide ItemPrivileges, DefaultPrivileges;
    forall p
      ensures p in Wanted(op) <==> p in Wanted(op')
    {
      if g :| g in op.grants && p in ItemPrivileges(g, op.database, op.role) {
        assert g in op'.grants && p in ItemPrivileges(g, op'.database, op'.role);
      }
      if g :| g in op'.grants && p in ItemPrivileges(g, op'.database, op'.role) {
        assert g in op.grants && p in ItemPrivileges(g, op.database, op.role);
      }
    }
  }

  // ------------------------------------------------------------------- databases

  function Other(s: Server, database: string): map<string, Db> {
    map d | d in s.databases && d != database :: s.databases[d]
  }

  /** Creating, updating and deleting a database leaves every other database, every role and every privilege alone. */
  lemma OnlyThisDatabase(w: World, act: Act, id: string, admin: Login, op: PgOp, database: string)
    requires OpAct(w, act, id, admin, op)
    requires (op.SyncDatabase? || op.DeleteDb?) && op.database == database
    ensures var s, t := ServerOf(w, id), ServerOf(Perform(w, act), id);
            && Other(t, database) == Other(s, database)
            && t.roles == s.roles && t.members == s.members && t.privileges == s.privileges
  {
    hide Perform, Disturb, OpAct, DatabaseStmt, OtherStmt, FutureStmt, GrantSql.ReadStatement, Granted;
    ActEffect(w, act, id, admin, op);
  }

  lemma {:induction false} OnlyThisDatabaseRun(h: seq<World>, t: seq<Act>, from: nat, upto: nat, id: string,
                                               admin: Login, op: PgOp, database: string)
    requires OpWindow(h, t, from, upto, id, admin, op)
    requires (op.SyncDatabase? || op.DeleteDb?) && op.database == database
    ensures var s, e := ServerOf(h[from], id), ServerOf(h[upto], id);
            && Other(e, database) == Other(s, database)
            && (op.SyncDatabase? && database in s.databases ==> database in e.databases)
    decreases upto
  {
    if from < upto {
      hide Perform, OpAct, Other, Replayed;
      OnlyThisDatabaseRun(h, t, from, upto - 1, id, admin, op, database);
      ReplayedAt(h, t, upto - 1);
      OnlyThisDatabase(h[upto - 1], t[upto - 1], id, admin, op, database);
      if op.SyncDatabase? {
        SyncNeverDrops(h[upto - 1], t[upto - 1], id, admin, op);
      }
    }
  }

  lemma SyncNeverDrops(w: World, act: Act, id: string, admin: Login, op: PgOp)
    requires OpAct(w, act, id, admin, op) && op.SyncDatabase?
    ensures ServerOf(w, id).databases.Keys <= ServerOf(Perform(w, act), id).databases.Keys
  {
    hide Perform, Disturb, OpAct, DatabaseStmt, OtherStmt, FutureStmt, GrantSql.ReadStatement, Granted;
    ActEffect(w, act, id, admin, op);
  }

  /**
   The schema named in the spec ends up owned by spec.owner exactly if the successful attempt found no database, or
   the schema was owned that way already. An earlier attempt whose CREATE DATABASE took effect unacknowledged is enough
   to lose the schema ownership for good.
   */
  lemma SchemaOwnerIff(op: PgOp, s: Server, t: Server)
    requires op.SyncDatabase? && Succeeded(op, s, t)
    requires op.schema != "" && op.schema != "public" && op.schema in t.databases[op.database].schemas
    ensures t.databases[op.database].schemas[op.schema] == op.owner
            <==> op.database !in s.databases || s.databases[op.database].schemas[op.schema] == op.owner
  {
  }

  /** Such a loss, concretely: the template's schema keeps the template's owner. */
  lemma LostCreateLosesTheSchema()
    ensures var s := Server(map[], {"app"}, map[], map["tpl" := Db("root", map["data" := "root"])], {});
            var op := SyncDatabase("db", "app", "data", "tpl");
            var created := Apply(s, DEFAULT_DB, CreateDatabase("db", "app", "tpl"));
            && created.Some?
            && forall t :: Succeeded(op, created.value, t) ==> t.databases["db"].schemas["data"] == "root"
  {
  }
}
