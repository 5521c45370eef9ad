/**
 The outside world of the operator: Vault's key-value secrets, PostgreSQL servers and the Kubernetes objects it
 reads and writes, with the only calls that reach them.

 Every remote call has one of three outcomes (applied and acknowledged, applied but reported as failed, not applied)
 and may be preceded by an act of somebody else. The class `Remote` keeps a ghost trace of all acts and the state
 between any two of them, so that a crash is a trace that stops.
 */
module Cluster {
  import opened Basics
  import Backoff
  import GrantSql

  // -------------------------------------------------------------------- data

  datatype Outcome = Acked | LostAck | Dropped

  /** The string-valued fields of a secret. */
  type Secret = map<string, string>

  function Field(s: Secret, key: string): string {
    if key in s then s[key] else ""
  }

  datatype Db = Db(owner: string, schemas: map<string, string>)

  /** A privilege held by a role; `scope` is the database the target lives in, empty for a database itself. */
  datatype Privilege = Privilege(scope: string, target: GrantSql.Target, role: string, name: string)

  datatype Server = Server(
    passwords: map<string, string>,      // of the roles that can log in
    roles: set<string>,
    members: map<string, set<string>>,   // group role -> members
    databases: map<string, Db>,
    privileges: set<Privilege>)

  datatype UserObject = UserObject(id: string, username: string, updatePassword: bool, created: bool, hash: string)

  datatype DatabaseSpec = DatabaseSpec(id: string, database: string, owner: string, schema: string, template: string,
                                       deleteFromCRD: bool)

  datatype DatabaseObject = DatabaseObject(version: nat, deleting: bool, finalizers: seq<string>, spec: DatabaseSpec,
                                           created: bool)

  datatype World = World(
    mount: string,                        // path prefix of the operator's secrets
    vault: map<string, Secret>,
    servers: map<string, Server>,         // by postgresqlID
    instances: map<string, bool>,         // Postgresql objects by postgresqlID: status.connected
    users: map<string, UserObject>,       // User objects by name
    database: Option<DatabaseObject>,     // one Database object
    revision: nat,                        // the last version given to it
    admins: set<string>)                  // logins that no User object names

  // ------------------------------------------------------------------- paths

  function UserPath(mount: string, id: string, username: string): string {
    mount + ("/" + (id + ("/" + username)))
  }

  function AdminPath(mount: string, id: string): string {
    UserPath(mount, id, "instance_admin")
  }

  function DefaultPath(mount: string): string {
    mount + ("/" + "default")
  }

  predicate NoSlash(s: string) {
    '/' !in s
  }

  // -------------------------------------------------------------- PostgreSQL

  const DEFAULT_DB := "postgres"

  datatype Conn = Conn(login: string, password: string, database: string)

  datatype Stmt =
    | CreateUser(name: string, password: string)
    | AlterUser(name: string, password: string)
    | CreateRole(name: string)
    | GrantRole(name: string, member: string)
    | RevokeRole(name: string, member: string)
    | CreateDatabase(name: string, owner: string, template: string)
    | AlterDatabaseOwner(name: string, owner: string)
    | AlterSchemaOwner(name: string, owner: string)
    | TerminateSessions(name: string)
    | DropDatabase(name: string)
    | GrantQuery(text: string)

  /** Password authentication, to a database that is there; there are no empty logins or passwords. */
  predicate CanConnect(s: Server, c: Conn) {
    && c.login != "" && c.password != ""
    && c.login in s.passwords && s.passwords[c.login] == c.password
    && c.database in s.databases
  }

  /** The members of a group as the catalog join reports them: roles that exist. */
  function Members(s: Server, group: string): set<string> {
    if group in s.members && group in s.roles then set m | m in s.members[group] && m in s.roles else {}
  }

  function SetMembers(s: Server, group: string, members: set<string>): Server {
    s.(members := s.members[group := members])
  }

  /** A new role has no members and is a member of nothing. */
  function AddRole(s: Server, name: string): Server {
    s.(roles := s.roles + {name}, members := (map g | g in s.members :: s.members[g] - {name})[name := {}])
  }

  /** `role` is a member of `group`, directly or through at most `depth` other groups. */
  predicate WithinGroup(s: Server, role: string, group: string, depth: nat)
    decreases depth
  {
    || role in Members(s, group)
    || (depth > 0 && exists g :: g in Members(s, group) && WithinGroup(s, role, g, depth - 1))
  }

  /** What the server refuses to make a member of `group`: the group itself, and groups that it belongs to. */
  predicate Circular(s: Server, group: string, member: string) {
    group == member || WithinGroup(s, group, member, |s.roles|)
  }

  function Granted(scope: string, st: GrantSql.Statement): set<Privilege> {
    set p | p in st.privileges :: Privilege(if st.target.OnDatabase? then "" else scope, st.target, st.role, p)
  }

  /** The effect of a statement in a session of `database`; None is an SQL error. */
  function Apply(s: Server, database: string, stmt: Stmt): Option<Server> {
    match stmt
    case CreateUser(name, password) =>
      if name in s.roles then None
      else Some(AddRole(s, name).(passwords := s.passwords[name := password]))
    case AlterUser(name, password) =>
      if name !in s.passwords then None else Some(s.(passwords := s.passwords[name := password]))
    case CreateRole(name) =>
      if name in s.roles then None else Some(AddRole(s, name))
    case GrantRole(name, member) =>
      if name !in s.roles || member !in s.roles || Circular(s, name, member) then None
      else Some(SetMembers(s, name, Members(s, name) + {member}))
    case RevokeRole(name, member) =>
      if name !in s.roles || member !in s.roles then None
      else Some(SetMembers(s, name, Members(s, name) - {member}))
    case CreateDatabase(name, owner, template) =>
      if name in s.databases || owner !in s.roles || (template != "" && template !in s.databases) then None
      else
        var schemas := if template == "" then map["public" := "pg_database_owner"] else s.databases[template].schemas;
        Some(s.(databases := s.databases[name := Db(owner, schemas)]))
    case AlterDatabaseOwner(name, owner) =>
      if name !in s.databases || owner !in s.roles then None
      else Some(s.(databases := s.databases[name := s.databases[name].(owner := owner)]))
    case AlterSchemaOwner(name, owner) =>
      if database !in s.databases || name !in s.databases[database].schemas || owner !in s.roles then None
      else
        var d := s.databases[database];
        Some(s.(databases := s.databases[database := d.(schemas := d.schemas[name := owner])]))
    case TerminateSessions(_) => Some(s)
    case DropDatabase(name) =>
      if name !in s.databases || name == database then None
      else Some(s.(databases := map d | d in s.databases && d != name :: s.databases[d]))
    case GrantQuery(text) =>
      match GrantSql.ReadStatement(text)
      case None => None
      case Some(st) =>
        if st.role !in s.roles then None else Some(s.(privileges := s.privileges + Granted(database, st)))
  }

  /** The statement reaches the server, is let in and has no SQL error. */
  predicate Accepted(w: World, id: string, c: Conn, stmt: Stmt) {
    && id in w.servers
    && CanConnect(w.servers[id], c)
    && Apply(w.servers[id], c.database, stmt).Some?
  }

  // -------------------------------------------------------------------- acts

  /** What others do to a Database object. */
  datatype ObjectEvent =
    | ObjectCreated(spec: DatabaseSpec, finalizers: seq<string>)
    | SpecEdited(spec: DatabaseSpec)
    | FinalizersEdited(finalizers: seq<string>)
    | DeleteRequested

  /** Acts of others that may fall between any two calls of the operator. */
  datatype Outside =
    | Idle
    | RequestRotation(id: string, newPassword: string)
    | OtherSecret(id: string, username: string, password: string)
    | OtherPassword(id: string, username: string, password: string)
    | ObjectEdit(event: ObjectEvent)

  function ApplyEvent(w: World, e: ObjectEvent): World {
    match e
    case ObjectCreated(spec, finalizers) =>
      if w.database.Some? then w else Store(w, DatabaseObject(0, false, finalizers, spec, false))
    case SpecEdited(spec) =>
      if w.database.None? then w else Store(w, w.database.value.(spec := spec))
    case FinalizersEdited(finalizers) =>
      if w.database.None? then w else Store(w, w.database.value.(finalizers := finalizers))
    case DeleteRequested =>
      if w.database.None? || w.database.value.deleting then w else Store(w, w.database.value.(deleting := true))
  }

  /** Every write of the object gives it a version that no object had before. */
  function Store(w: World, d: DatabaseObject): World {
    w.(revision := w.revision + 1, database := Settled(d.(version := w.revision + 1)))
  }

  /** An object being deleted goes away with its last finalizer. */
  function Settled(d: DatabaseObject): Option<DatabaseObject> {
    if d.deleting && d.finalizers == [] then None else Some(d)
  }

  /**
   A rotation is requested by adding new_password where none is pending; other controllers and people write user
   secrets and the passwords of users that are not administrators.
   */
  function Disturb(w: World, a: Outside): World {
    match a
    case Idle => w
    case RequestRotation(id, newPassword) =>
      var path := AdminPath(w.mount, id);
      if NoSlash(id) && path in w.vault && Field(w.vault[path], "new_password") == "" then
        w.(vault := w.vault[path := w.vault[path]["new_password" := newPassword]])
      else w
    case OtherSecret(id, username, password) =>
      if NoSlash(id) && username != "instance_admin" then
        w.(vault := w.vault[UserPath(w.mount, id, username) := map["password" := password]])
      else w
    case OtherPassword(id, username, password) =>
      if id in w.servers && username in w.servers[id].passwords && username !in w.admins then
        SetServer(w, id, w.servers[id].(passwords := w.servers[id].passwords[username := password]))
      else w
    case ObjectEdit(event) => ApplyEvent(w, event)
  }

  function SetServer(w: World, id: string, s: Server): World {
    w.(servers := w.servers[id := s])
  }

  datatype Act =
    | Disturbed(who: Outside)
    | VaultGet(path: string, outcome: Outcome)
    | VaultPut(path: string, secret: Secret, outcome: Outcome)
    | Catalog(id: string, conn: Conn, outcome: Outcome)
    | Sql(id: string, conn: Conn, stmt: Stmt, outcome: Outcome)
    | InstanceLookup(id: string, outcome: Outcome)
    | SaveConnected(id: string, connected: bool, outcome: Outcome)
    | UserFetch(name: string, outcome: Outcome)
    | SaveUser(name: string, created: bool, hash: string, outcome: Outcome)
    | ObjectFetch(outcome: Outcome)
    | ObjectUpdate(copy: DatabaseObject, outcome: Outcome)
    | ObjectStatus(copy: DatabaseObject, outcome: Outcome)

  /** An update goes through only if nobody changed the object since the copy was read. */
  predicate Current(w: World, copy: DatabaseObject) {
    w.database.Some? && w.database.value.version == copy.version
  }

  function Perform(w: World, act: Act): World {
    match act
    case Disturbed(a) => Disturb(w, a)
    case VaultPut(path, secret, o) =>
      if o.Dropped? then w else w.(vault := w.vault[path := secret])
    case Sql(id, c, stmt, o) =>
      if o.Dropped? || !Accepted(w, id, c, stmt) then w
      else SetServer(w, id, Apply(w.servers[id], c.database, stmt).value)
    case SaveConnected(id, connected, o) =>
      if o.Dropped? || id !in w.instances then w else w.(instances := w.instances[id := connected])
    case SaveUser(name, created, hash, o) =>
      if o.Dropped? || name !in w.users then w
      else w.(users := w.users[name := w.users[name].(created := created, hash := hash)])
    case ObjectUpdate(copy, o) =>
      if o.Dropped? || !Current(w, copy) then w
      else Store(w, w.database.value.(finalizers := copy.finalizers, spec := copy.spec))
    case ObjectStatus(copy, o) =>
      if o.Dropped? || !Current(w, copy) then w
      else Store(w, w.database.value.(created := copy.created))
    case _ => w
  }

  /** Acts that only look. */
  predicate IsRead(act: Act) {
    act.VaultGet? || act.Catalog? || act.InstanceLookup? || act.UserFetch? || act.ObjectFetch?
  }

  lemma ReadsChangeNothing(w: World, act: Act)
    requires IsRead(act)
    ensures Perform(w, act) == w
  {
  }

  lemma PutWrites(w: World, path: string, secret: Secret, o: Outcome)
    ensures Perform(w, VaultPut(path, secret, o)) == if o == Dropped then w else w.(vault := w.vault[path := secret])
  {
  }

  lemma StatementsTakeEffect(w: World, id: string, c: Conn, stmt: Stmt, o: Outcome)
    ensures Perform(w, Sql(id, c, stmt, o))
            == if o != Dropped && Accepted(w, id, c, stmt)
               then SetServer(w, id, Apply(w.servers[id], c.database, stmt).value) else w
  {
  }

  /** Nothing changes the mount point or the set of administrators. */
  lemma ActsKeepTheFrame(w: World, act: Act)
    ensures Perform(w, act).mount == w.mount && Perform(w, act).admins == w.admins
  {
  }

  /** Every state is the effect of the act before it. */
  ghost predicate Replayed(history: seq<World>, trace: seq<Act>) {
    var n := |trace|;
    && |history| == n + 1
    && (n > 0 ==> history[n] == Perform(history[n - 1], trace[n - 1]) && Replayed(history[..n], trace[..n - 1]))
  }

  lemma ThreeActs(w: World, t: seq<Act>)
    requires |t| == 3
    ensures var w1 := Perform(w, t[0]);
            var w2 := Perform(w1, t[1]);
            Replayed([w, w1, w2, Perform(w2, t[2])], t)
  {
    hide Perform;
    var w1 := Perform(w, t[0]);
    var w2 := Perform(w1, t[1]);
    var h := [w, w1, w2, Perform(w2, t[2])];
    assert h[..3] == [w, w1, w2] && h[..3][..2] == [w, w1] && h[..3][..2][..1] == [w];
    assert t[..2][..1] == [t[0]] && t[..2][..1][..0] == [];
    assert Replayed([w], []);
    assert Replayed([w, w1], t[..2][..1]);
    assert Replayed([w, w1, w2], t[..2]);
  }

  lemma {:induction false} ReplayedAt(history: seq<World>, trace: seq<Act>, i: nat)
    requires Replayed(history, trace) && i < |trace|
    ensures history[i + 1] == Perform(history[i], trace[i])
  {
    hide Perform;
    if i < |trace| - 1 {
      ReplayedAt(history[..|trace|], trace[..|trace| - 1], i);
    }
  }

  lemma {:induction false} FrameStays(history: seq<World>, trace: seq<Act>, i: nat, j: nat)
    requires Replayed(history, trace) && i <= j <= |trace|
    ensures history[j].mount == history[i].mount && history[j].admins == history[i].admins
    decreases j
  {
    if i < j {
      hide Perform;
      FrameStays(history, trace, i, j - 1);
      ReplayedAt(history, trace, j - 1);
      ActsKeepTheFrame(history[j - 1], trace[j - 1]);
    }
  }

  datatype ReadResult = Found(secret: Secret) | Missing | Unreachable

  // ------------------------------------------------------------------- calls

  class Remote {
    var world: World
    var calls: nat
    var clock: nat                        // nanoseconds spent in backoff
    ghost var trace: seq<Act>
    ghost var history: seq<World>

    /** The schedule: nothing is assumed about these maps from call numbers. */
    const faults: imap<nat, Outcome>
    const others: imap<nat, Outside>
    const cancels: imap<nat, bool>
    const draws: imap<nat, nat>

    function Fate(n: nat): Outcome {
      if n in faults then faults[n] else Dropped
    }

    function OthersAt(n: nat): Outside {
      if n in others then others[n] else Idle
    }

    function Canceled(n: nat): bool {
      n in cancels && cancels[n]
    }

    /** The random source; None when it fails. */
    function Draw(n: nat): Option<nat> {
      if n in draws then Some(draws[n]) else None
    }

    ghost predicate Valid()
      reads this
    {
      |history| == |trace| + 1 && history[|trace|] == world && Replayed(history, trace)
    }

    /** From call n on nothing fails, nobody interferes and the random source works. */
    ghost predicate Calm(n: nat) {
      forall k {:trigger Fate(k)} {:trigger OthersAt(k)} {:trigger Draw(k)} ::
        n <= k ==> Fate(k) == Acked && OthersAt(k) == Idle && Draw(k).Some?
    }

    twostate predicate Grew()
      reads this
    {
      && Valid() && old(trace) <= trace && old(history) <= history && old(calls) <= calls && old(clock) <= clock
      && world.mount == old(world.mount) && world.admins == old(world.admins)
    }

    /** The state once somebody else has acted before the next call. */
    ghost function Met(): World
      reads this
    {
      Disturb(world, OthersAt(calls))
    }

    /** Exactly one call was made: somebody's act, then this one. */
    twostate predicate Called(act: Act)
      reads this
    {
      && Grew()
      && calls == old(calls) + 1
      && clock == old(clock)
      && trace == old(trace) + [Disturbed(OthersAt(old(calls))), act]
      && history == old(history) + [old(Met()), world]
      && old(Met()).mount == old(world).mount && old(Met()).admins == old(world).admins
      && world == Perform(old(Met()), act)
      && (OthersAt(old(calls)).Idle? ==> old(Met()) == old(world))
    }

    constructor (world: World, faults: imap<nat, Outcome>, others: imap<nat, Outside>, cancels: imap<nat, bool>,
                 draws: imap<nat, nat>)
      ensures Valid() && this.world == world && trace == [] && history == [world] && calls == 0 && clock == 0
      ensures this.faults == faults && this.others == others && this.cancels == cancels && this.draws == draws
    {
      this.world, this.calls, this.clock, this.trace, this.history := world, 0, 0, [], [world];
      this.faults, this.others, this.cancels, this.draws := faults, others, cancels, draws;
    }

    /** The start of every call: others act first, then the network decides. */
    method Begin() returns (o: Outcome)
      requires Valid()
      modifies this
      ensures Valid() && calls == old(calls) + 1 && clock == old(clock)
      ensures world.mount == old(world.mount) && world.admins == old(world.admins)
      ensures OthersAt(old(calls)).Idle? ==> world == old(world)
      ensures o == Fate(old(calls)) && world == old(Met())
      ensures trace == old(trace) + [Disturbed(OthersAt(old(calls)))] && history == old(history) + [world]
    {
      o := Fate(calls);
      var a := OthersAt(calls);
      calls := calls + 1;
      Record(Disturbed(a));
    }

    method Record(act: Act)
      requires Valid()
      modifies this`world, this`trace, this`history
      ensures world.mount == old(world.mount) && world.admins == old(world.admins)
      ensures Valid() && world == Perform(old(world), act)
      ensures trace == old(trace) + [act] && history == old(history) + [world]
    {
      hide Perform;
      ActsKeepTheFrame(world, act);
      world := Perform(world, act);
      trace := trace + [act];
      history := history + [world];
      assert history[..|trace|] == old(history) && trace[..|trace| - 1] == old(trace);
    }

    method Get(path: string) returns (r: ReadResult)
      requires Valid()
      modifies this
      ensures Called(VaultGet(path, Fate(old(calls)))) && world == old(Met())
      ensures r == if Fate(old(calls)) != Acked then Unreachable
                   else if path in world.vault then Found(world.vault[path]) else Missing
    {
      hide Perform, Disturb, Replayed;
      var o := Begin();
      ReadsChangeNothing(world, VaultGet(path, o));
      Record(VaultGet(path, o));
      if o != Acked {
        return Unreachable;
      }
      return if path in world.vault then Found(world.vault[path]) else Missing;
    }

    method Put(path: string, secret: Secret) returns (ok: bool)
      requires Valid()
      modifies this
      ensures Called(VaultPut(path, secret, Fate(old(calls))))
      ensures world == if Fate(old(calls)) == Dropped then old(Met())
                       else old(Met()).(vault := old(Met()).vault[path := secret])
      ensures ok == (Fate(old(calls)) == Acked)
    {
      hide Perform, Disturb, Replayed;
      var o := Begin();
      PutWrites(world, path, secret, o);
      Record(VaultPut(path, secret, o));
      ok := o == Acked;
    }

    /** A query on the system catalogs. */
    method Query(id: string, c: Conn) returns (s: Option<Server>)
      requires Valid()
      modifies this
      ensures Called(Catalog(id, c, Fate(old(calls)))) && world == old(Met())
      ensures s == if Fate(old(calls)) == Acked && id in world.servers && CanConnect(world.servers[id], c)
                   then Some(world.servers[id]) else None
    {
      hide Perform, Disturb, Replayed;
      var o := Begin();
      ReadsChangeNothing(world, Catalog(id, c, o));
      Record(Catalog(id, c, o));
      s := if o == Acked && id in world.servers && CanConnect(world.servers[id], c) then Some(world.servers[id])
           else None;
    }

    method Exec(id: string, c: Conn, stmt: Stmt) returns (ok: bool)
      requires Valid()
      modifies this
      ensures Called(Sql(id, c, stmt, Fate(old(calls))))
      ensures ok == (Fate(old(calls)) == Acked && Accepted(old(Met()), id, c, stmt))
      ensures world == if Fate(old(calls)) != Dropped && Accepted(old(Met()), id, c, stmt)
                       then SetServer(old(Met()), id, Apply(old(Met()).servers[id], c.database, stmt).value)
                       else old(Met())
    {
      hide Perform, Disturb, Replayed, Apply, CanConnect;
      var o := Begin();
      ok := o == Acked && Accepted(world, id, c, stmt);
      StatementsTakeEffect(world, id, c, stmt, o);
      Record(Sql(id, c, stmt, o));
    }

    /** `FindPostgresqlByID` and its status; None stands for a failed lookup and for no such object. */
    method LookupInstance(id: string) returns (connected: Option<bool>)
      requires Valid()
      modifies this
      ensures Called(InstanceLookup(id, Fate(old(calls)))) && world == old(Met())
      ensures connected == if Fate(old(calls)) == Acked && id in world.instances then Some(world.instances[id])
                           else None
    {
      hide Perform, Disturb, Replayed;
      var o := Begin();
      ReadsChangeNothing(world, InstanceLookup(id, o));
      Record(InstanceLookup(id, o));
      connected := if o == Acked && id in world.instances then Some(world.instances[id]) else None;
    }

    method PersistConnected(id: string, connected: bool)
      requires Valid()
      modifies this
      ensures Called(SaveConnected(id, connected, Fate(old(calls))))
    {
      hide Perform, Disturb, Replayed;
      var o := Begin();
      Record(SaveConnected(id, connected, o));
    }

    method FetchUser(name: string) returns (u: Option<UserObject>)
      requires Valid()
      modifies this
      ensures Called(UserFetch(name, Fate(old(calls)))) && world == old(Met())
      ensures u == if Fate(old(calls)) == Acked && name in world.users then Some(world.users[name]) else None
    {
      hide Perform, Disturb, Replayed;
      var o := Begin();
      ReadsChangeNothing(world, UserFetch(name, o));
      Record(UserFetch(name, o));
      u := if o == Acked && name in world.users then Some(world.users[name]) else None;
    }

    method PersistUser(name: string, created: bool, hash: string) returns (ok: bool)
      requires Valid()
      modifies this
      ensures Called(SaveUser(name, created, hash, Fate(old(calls))))
      ensures ok == (Fate(old(calls)) == Acked)
    {
      hide Perform, Disturb, Replayed;
      var o := Begin();
      Record(SaveUser(name, created, hash, o));
      ok := o == Acked;
    }

    method FetchObject() returns (d: Option<DatabaseObject>)
      requires Valid()
      modifies this
      ensures Called(ObjectFetch(Fate(old(calls)))) && world == old(Met())
      ensures d == if Fate(old(calls)) == Acked then world.database else None
    {
      hide Perform, Disturb, Replayed;
      var o := Begin();
      ReadsChangeNothing(world, ObjectFetch(o));
      Record(ObjectFetch(o));
      d := if o == Acked then world.database else None;
    }

    method UpdateObject(copy: DatabaseObject) returns (ok: bool)
      requires Valid()
      modifies this
      ensures Called(ObjectUpdate(copy, Fate(old(calls))))
      ensures ok == (Fate(old(calls)) == Acked && Current(old(Met()), copy))
    {
      hide Perform, Disturb, Replayed;
      var o := Begin();
      ok := o == Acked && Current(world, copy);
      Record(ObjectUpdate(copy, o));
    }

    method UpdateObjectStatus(copy: DatabaseObject) returns (ok: bool)
      requires Valid()
      modifies this
      ensures Called(ObjectStatus(copy, Fate(old(calls))))
      ensures ok == (Fate(old(calls)) == Acked && Current(old(Met()), copy))
    {
      hide Perform, Disturb, Replayed;
      var o := Begin();
      ok := o == Acked && Current(world, copy);
      Record(ObjectStatus(copy, o));
    }

    /** A number below the bound from the random source; every draw has a number of its own. */
    method RandomBelow(bound: nat) returns (n: Option<nat>)
      requires bound > 0
      modifies this`calls
      ensures calls == old(calls) + 1
      ensures n.None? <==> Draw(old(calls)).None?
      ensures n.Some? ==> n.value < bound
    {
      var draw := Draw(calls);
      calls := calls + 1;
      n := if draw.None? then None else Some(Backoff.RandInt(draw.value, bound));
    }

    /**
     The pause after a failed attempt; true when the context is canceled meanwhile. Where the arithmetic of the delay is
     not exact, it may be any delay.
     */
    method Pause(base: nat, attempt: nat) returns (canceled: bool)
      requires Valid() && attempt >= 1
      modifies this`clock
      ensures old(clock) <= clock
      ensures Backoff.Defined(base, attempt) ==> clock <= old(clock) + Backoff.Longest(base, attempt)
    {
      var delay := if Draw(calls).Some? then Draw(calls).value else 0;
      if Backoff.Defined(base, attempt) {
        delay := Backoff.CalculateBackoff(base, attempt, Backoff.MAX_RETRY_DELAY, Draw(calls));
      }
      canceled := Canceled(calls);
      if !canceled {
        clock := clock + delay;
      }
    }
  }
}
