/**
 The vocabulary of the admin credential protocol, its safety property, and the protocol as a program with a memory:
 which act may follow what the program has learned from the answers to its own calls, whatever the world does in
 between.
 */
module AdminSteps {
  import opened Basics
  import opened Cluster
  import opened VaultStore
  import opened PostgresOps

  // ----------------------------------------------------------------- vocabulary

  predicate Present(w: World, id: string) {
    AdminPath(w.mount, id) in w.vault
  }

  /** A field of the instance_admin secret. */
  function Listed(w: World, id: string, key: string): string {
    if Present(w, id) then Field(w.vault[AdminPath(w.mount, id)], key) else ""
  }

  function ListedLogin(w: World, id: string): Login {
    Login(Listed(w, id, "login"), Listed(w, id, "password"))
  }

  /** Vault lists a login and password that PostgreSQL accepts. */
  predicate InSync(w: World, id: string) {
    Present(w, id) && CanConnect(ServerOf(w, id), On(ListedLogin(w, id), DEFAULT_DB))
  }

  /** PostgreSQL's password of a login; empty if there is none. */
  function ActualPassword(w: World, id: string, login: string): string {
    if login in ServerOf(w, id).passwords then ServerOf(w, id).passwords[login] else ""
  }

  /** The live credential is not lost: Vault's `password` or Vault's `new_password` is what PostgreSQL has. */
  ghost predicate Live(w: World, id: string) {
    Present(w, id) ==>
      var login := Listed(w, id, "login");
      var actual := ActualPassword(w, id, login);
      && login != "" && login in w.admins && actual != ""
      && (actual == Listed(w, id, "password") || actual == Listed(w, id, "new_password"))
  }

  /** The default login is an administrator too. */
  ghost predicate DefaultReserved(w: World) {
    Answer(w, ReadDefault).Credentials? ==> Answer(w, ReadDefault).login in w.admins
  }

  ghost predicate Safe(w: World, id: string) {
    Live(w, id) && DefaultReserved(w)
  }

  /**
   What a reconcile of this instance may do in state w. A Put leaves exactly a login and PostgreSQL's own password for
   it, either the default credentials or the login already listed with a password already listed; the one statement is
   the requested ALTER, sent with the listed credentials.
   */
  ghost predicate Allowed(w: World, act: Act, id: string) {
    match act
    case Disturbed(_) => true
    case VaultGet(_, _) => true
    case Catalog(_, _, _) => true
    case SaveConnected(id', _, _) => id' == id
    case VaultPut(path, s, _) =>
      && path == AdminPath(w.mount, id)
      && s.Keys == {"login", "password"}
      && s["login"] != "" && s["login"] in w.admins
      && s["password"] != "" && ActualPassword(w, id, s["login"]) == s["password"]
      && (if Present(w, id) then
            s["login"] == Listed(w, id, "login")
            && (s["password"] == Listed(w, id, "password") || s["password"] == Listed(w, id, "new_password"))
          else Answer(w, ReadDefault) == Credentials(s["login"], s["password"]))
    case Sql(id', c, stmt, _) =>
      && id' == id && Present(w, id)
      && Listed(w, id, "new_password") != ""
      && stmt == AlterUser(Listed(w, id, "login"), Listed(w, id, "new_password"))
      && c == On(ListedLogin(w, id), DEFAULT_DB)
    case _ => false
  }

  // ---------------------------------------------------------------- invariance

  /** No act a reconcile may do, for this or any other instance, loses the live credential. */
  lemma AllowedKeepsSafe(w: World, act: Act, id: string, other: string)
    requires NoSlash(id) && NoSlash(other)
    requires Allowed(w, act, other) && Safe(w, id)
    ensures Safe(Perform(w, act), id)
  {
    match act
    case Disturbed(a) => DisturbKeepsSafe(w, a, id);
    case VaultPut(path, s, _) =>
      if other != id && AdminPath(w.mount, id) == AdminPath(w.mount, other) {
        PathsAreInjective(w.mount, id, "instance_admin", other, "instance_admin");
      }
      DefaultPathIsApart(w.mount, other, "instance_admin");
    case _ =>
  }

  lemma DisturbKeepsSafe(w: World, a: Outside, id: string)
    requires NoSlash(id) && Safe(w, id)
    ensures Safe(Disturb(w, a), id)
  {
    hide Disturb;
    ActsKeepTheFrame(w, Disturbed(a));
    DisturbKeepsAdminSecret(w, a, id);
    OthersKeepCatalogs(w, a, id);
  }

  /** Others do not change whether the listed credentials work. */
  lemma DisturbKeepsInSync(w: World, a: Outside, id: string)
    requires NoSlash(id) && Safe(w, id)
    ensures InSync(Disturb(w, a), id) <==> InSync(w, id)
    ensures Present(Disturb(w, a), id) <==> Present(w, id)
    ensures ListedLogin(Disturb(w, a), id) == ListedLogin(w, id)
  {
    hide Disturb;
    DisturbKeepsAdminSecret(w, a, id);
    OthersKeepCatalogs(w, a, id);
  }

  // -------------------------------------------------------------------- phases

  /** Acts that change neither the secret nor the server on the operator's behalf. */
  predicate Looks(act: Act) {
    act.Disturbed? || act.VaultGet? || act.Catalog?
  }

  /** Between reads: what was read stays true. */
  ghost predicate Unchanged(w: World, w': World, id: string) {
    && w'.mount == w.mount && w'.admins == w.admins
    && (Present(w', id) <==> Present(w, id))
    && ListedLogin(w', id) == ListedLogin(w, id)
    && (Listed(w, id, "new_password") != "" ==> Listed(w', id, "new_password") == Listed(w, id, "new_password"))
    && Answer(w', ReadDefault) == Answer(w, ReadDefault)
    && forall u :: u in w.admins ==> ActualPassword(w', id, u) == ActualPassword(w, id, u)
  }

  lemma LookChangesNothing(w: World, act: Act, id: string)
    requires NoSlash(id) && Looks(act)
    ensures Unchanged(w, Perform(w, act), id)
  {
    hide Disturb;
    match act
    case Disturbed(a) =>
      DisturbKeepsAdminSecret(w, a, id);
      OthersKeepCatalogs(w, a, id);
      ActsKeepTheFrame(w, act);
    case _ =>
      ReadsChangeNothing(w, act);
  }

  lemma {:induction false} LooksChangeNothing(h: seq<World>, t: seq<Act>, from: nat, upto: nat, id: string)
    requires Replayed(h, t) && from <= upto <= |t| && NoSlash(id)
    requires forall i :: from <= i < upto ==> Looks(t[i])
    ensures Unchanged(h[from], h[upto], id)
    decreases upto
  {
    if from < upto {
      hide *;
      LooksChangeNothing(h, t, from, upto - 1, id);
      ReplayedAt(h, t, upto - 1);
      LookChangesNothing(h[upto - 1], t[upto - 1], id);
    }
  }

  /** Looking leaves the catalogs alone, and so do others between any two looks. */
  lemma {:induction false} LooksKeepCatalogs(h: seq<World>, t: seq<Act>, from: nat, upto: nat, id: string)
    requires Replayed(h, t) && from <= upto <= |t|
    requires forall i :: from <= i < upto ==> Looks(t[i])
    ensures SameCatalogs(ServerOf(h[from], id), ServerOf(h[upto], id))
    decreases upto
  {
    if from < upto {
      hide Perform, Disturb, Replayed;
      LooksKeepCatalogs(h, t, from, upto - 1, id);
      ReplayedAt(h, t, upto - 1);
      var w, act := h[upto - 1], t[upto - 1];
      if act.Disturbed? {
        PerformDisturbs(w, act.who);
        OthersKeepCatalogs(w, act.who, id);
      } else {
        ReadsChangeNothing(w, act);
      }
    }
  }

  lemma PerformDisturbs(w: World, a: Outside)
    ensures Perform(w, Disturbed(a)) == Disturb(w, a)
  {
  }

  /** While the default credentials are being stored. */
  ghost predicate Registering(w: World, id: string, login: string, password: string) {
    && Answer(w, ReadDefault) == Credentials(login, password)
    && login != "" && password != "" && login in w.admins
    && ActualPassword(w, id, login) == password
    && (Present(w, id) ==> ListedLogin(w, id) == Login(login, password))
  }

  /** While the password is being altered: the request is pending and PostgreSQL has one of the two. */
  ghost predicate Altering(w: World, id: string, login: string, password: string, newPassword: string) {
    && Present(w, id) && ListedLogin(w, id) == Login(login, password)
    && Listed(w, id, "new_password") == newPassword && newPassword != ""
    && login != "" && login in w.admins
    && ActualPassword(w, id, login) != ""
    && (ActualPassword(w, id, login) == password || ActualPassword(w, id, login) == newPassword)
  }

  /** While the new password, already PostgreSQL's, is being committed. */
  ghost predicate Committing(w: World, id: string, login: string, newPassword: string) {
    && Present(w, id) && Listed(w, id, "login") == login
    && login != "" && login in w.admins
    && newPassword != "" && ActualPassword(w, id, login) == newPassword
    && (Listed(w, id, "password") == newPassword || Listed(w, id, "new_password") == newPassword)
  }

  // ------------------------------------------------------------------- program

  /** The program counter of a reconcile, with what it has learned. */
  datatype Memory =
    | Nothing
    | Absent                                        // Vault has no instance_admin secret
    | Default(creds: Login)                         // so the default credentials have been read
    | Storing(creds: Login)                         // they work and are being stored
    | Own(creds: Login)                             // the instance's own credentials have been read
    | Working                                       // they work
    | Requested(newPassword: string)                // a rotation is requested
    | Rotating(creds: Login, newPassword: string)   // the credentials have been read again
    | Altered(newPassword: string)                  // the server has acknowledged the ALTER
    | Recommitting(login: string, newPassword: string)   // the login to commit has been read

  /** What the program may conclude from an answer about the instance_admin secret. */
  ghost predicate Learns(m: Memory, w: World, id: string, m': Memory) {
    var creds := Answer(w, ReadAdmin(id));
    || (m.Nothing? && creds.NotFound? && m' == Absent)
    || (m.Nothing? && creds.Credentials? && m' == Own(Login(creds.login, creds.password)))
    || (m.Working? && m'.Requested? && m'.newPassword != ""
        && Answer(w, ReadNewPassword(id)) == Password(m'.newPassword))
    || (m.Requested? && creds.Credentials? && m' == Rotating(Login(creds.login, creds.password), m.newPassword))
    || ((m.Altered? || m.Recommitting?) && Listed(w, id, "login") != ""
        && m' == Recommitting(Listed(w, id, "login"), m.newPassword))
  }

  /**
   One act of the program with memory m, met by the world w; m' is its memory afterwards. Only acknowledged answers
   teach it anything, and nothing is assumed about the world between its acts.
   */
  ghost predicate StepOf(m: Memory, w: World, act: Act, id: string, m': Memory) {
    match act
    case Disturbed(_) => m' == m
    case SaveConnected(id', _, _) => id' == id && m' == m
    case VaultGet(path, o) =>
      || m' == m
      || (o == Acked && path == AdminPath(w.mount, id) && Learns(m, w, id, m'))
      || (o == Acked && path == DefaultPath(w.mount) && m.Absent? && m'.Default?
          && Answer(w, ReadDefault) == Credentials(m'.creds.name, m'.creds.password))
    case Catalog(id', c, o) =>
      || m' == m
      || (o == Acked && id' == id && CanConnect(ServerOf(w, id), c)
          && ((m.Default? && c == On(m.creds, DEFAULT_DB) && m' == Storing(m.creds))
              || (m.Own? && c == On(m.creds, DEFAULT_DB) && m' == Working)))
    case VaultPut(path, secret, _) =>
      && m' == m && path == AdminPath(w.mount, id)
      && ((m.Storing? && secret == map["login" := m.creds.name, "password" := m.creds.password])
          || (m.Recommitting? && secret == map["login" := m.login, "password" := m.newPassword]))
    case Sql(id', c, stmt, o) =>
      && id' == id && m.Rotating?
      && c == On(m.creds, DEFAULT_DB) && stmt == AlterUser(m.creds.name, m.newPassword)
      && (m' == m || (o == Acked && Accepted(w, id, c, stmt) && m' == Altered(m.newPassword)))
    case _ => false
  }

  /** The program may crash and start again between any two acts. */
  ghost predicate Step(m: Memory, w: World, act: Act, id: string, m': Memory) {
    StepOf(m, w, act, id, m') || StepOf(Nothing, w, act, id, m')
  }

  /** The acts of a window are a run of the program that takes its memory from m to m'. */
  ghost predicate Follows(h: seq<World>, t: seq<Act>, from: nat, upto: nat, id: string, m: Memory, m': Memory)
    requires from <= upto <= |t| < |h|
    decreases upto - from
  {
    if from == upto then m' == m
    else
      var w, act := h[upto - 1], t[upto - 1];
      exists mid {:trigger Step(mid, w, act, id, m')} ::
        Follows(h, t, from, upto - 1, id, m, mid) && Step(mid, w, act, id, m')
  }

  lemma {:induction false} FollowsJoin(h: seq<World>, t: seq<Act>, a: nat, b: nat, c: nat, id: string,
                                       m0: Memory, m1: Memory, m2: Memory)
    requires a <= b <= c <= |t| < |h|
    requires Follows(h, t, a, b, id, m0, m1) && Follows(h, t, b, c, id, m1, m2)
    ensures Follows(h, t, a, c, id, m0, m2)
    decreases c
  {
    hide Step;
    if b < c {
      var mid :| Follows(h, t, b, c - 1, id, m1, mid) && Step(mid, h[c - 1], t[c - 1], id, m2);
      FollowsJoin(h, t, a, b, c - 1, id, m0, m1, mid);
    }
  }

  lemma {:induction false} FollowsGrows(h1: seq<World>, t1: seq<Act>, h: seq<World>, t: seq<Act>, from: nat, upto: nat,
                                        id: string, m: Memory, m': Memory)
    requires from <= upto <= |t1| < |h1| && h1 <= h && t1 <= t && |t| < |h|
    requires Follows(h1, t1, from, upto, id, m, m')
    ensures Follows(h, t, from, upto, id, m, m')
    decreases upto
  {
    hide Step;
    if from < upto {
      var mid :| Follows(h1, t1, from, upto - 1, id, m, mid) && Step(mid, h1[upto - 1], t1[upto - 1], id, m');
      FollowsGrows(h1, t1, h, t, from, upto - 1, id, m, mid);
      assert h[upto - 1] == h1[upto - 1] && t[upto - 1] == t1[upto - 1];
    }
  }

  /** Acts that the memory allows without learning anything. */
  lemma {:induction false} FollowsStay(h: seq<World>, t: seq<Act>, from: nat, upto: nat, id: string, m: Memory)
    requires from <= upto <= |t| < |h| && forall i :: from <= i < upto ==> Step(m, h[i], t[i], id, m)
    ensures Follows(h, t, from, upto, id, m, m)
    decreases upto
  {
    hide Step;
    if from < upto {
      FollowsStay(h, t, from, upto - 1, id, m);
      assert Step(m, h[upto - 1], t[upto - 1], id, m);
    }
  }

  /** Looking, with something learned from the last answer. */
  lemma FollowsLooks(h: seq<World>, t: seq<Act>, from: nat, upto: nat, id: string, m: Memory, m': Memory)
    requires from <= upto <= |t| < |h| && forall i :: from <= i < upto ==> Looks(t[i])
    requires m' == m || (from < upto && Step(m, h[upto - 1], t[upto - 1], id, m'))
    ensures Follows(h, t, from, upto, id, m, m')
  {
    hide Learns, Answer, CanConnect;
    if m' == m {
      FollowsStay(h, t, from, upto, id, m);
    } else {
      FollowsStay(h, t, from, upto - 1, id, m);
    }
  }

  /** A fresh run may follow any other. */
  lemma {:induction false} FollowsRestart(h: seq<World>, t: seq<Act>, from: nat, upto: nat, id: string, m: Memory,
                                          m': Memory)
    requires from < upto <= |t| < |h| && Follows(h, t, from, upto, id, Nothing, m')
    ensures Follows(h, t, from, upto, id, m, m')
    decreases upto
  {
    var mid :| Follows(h, t, from, upto - 1, id, Nothing, mid) && Step(mid, h[upto - 1], t[upto - 1], id, m');
    if from < upto - 1 {
      FollowsRestart(h, t, from, upto - 1, id, m, mid);
    } else {
      assert Follows(h, t, from, from, id, m, m);
      assert Step(m, h[from], t[from], id, m');
    }
  }

  /** The acts of a window are a run of the program from its start. */
  ghost predicate Runs(h: seq<World>, t: seq<Act>, from: nat, upto: nat, id: string)
    requires from <= upto <= |t| < |h|
  {
    exists m :: Follows(h, t, from, upto, id, Nothing, m)
  }

  lemma RunsJoin(h1: seq<World>, t1: seq<Act>, h: seq<World>, t: seq<Act>, from: nat, id: string)
    requires from <= |t1| < |h1| && h1 <= h && t1 <= t && |t| < |h|
    requires Runs(h1, t1, from, |t1|, id) && Runs(h, t, |t1|, |t|, id)
    ensures Runs(h, t, from, |t|, id)
  {
    hide Follows;
    var m1 :| Follows(h1, t1, from, |t1|, id, Nothing, m1);
    FollowsGrows(h1, t1, h, t, from, |t1|, id, Nothing, m1);
    var m2 :| Follows(h, t, |t1|, |t|, id, Nothing, m2);
    if |t1| < |t| {
      FollowsRestart(h, t, |t1|, |t|, id, m1, m2);
      FollowsJoin(h, t, from, |t1|, |t|, id, Nothing, m1, m2);
    }
  }

  // ------------------------------------------------------------------ knowledge

  /** What the program with memory m relies on; it is true of the world at every moment. */
  ghost predicate Knows(w: World, id: string, m: Memory) {
    match m
    case Nothing => true
    case Working => true
    case Absent => !Present(w, id)
    case Default(creds) => !Present(w, id) && Answer(w, ReadDefault) == Credentials(creds.name, creds.password)
    case Storing(creds) => Registering(w, id, creds.name, creds.password)
    case Own(creds) => Present(w, id) && ListedLogin(w, id) == creds
    case Requested(newPassword) => Listed(w, id, "new_password") == newPassword && newPassword != ""
    case Rotating(creds, newPassword) => Altering(w, id, creds.name, creds.password, newPassword)
    case Altered(newPassword) => Committing(w, id, Listed(w, id, "login"), newPassword)
    case Recommitting(login, newPassword) => Committing(w, id, login, newPassword)
  }

  /** Everything the program has learned survives whatever leaves the credentials unchanged. */
  lemma KnowledgeStays(w: World, w': World, id: string, m: Memory)
    requires Unchanged(w, w', id) && Knows(w, id, m)
    ensures Knows(w', id, m)
  {
    hide Answer;
  }

  /** What an answer teaches is true. */
  lemma LearningIsSound(w: World, id: string, m: Memory, m': Memory)
    requires Safe(w, id) && Knows(w, id, m) && Learns(m, w, id, m')
    ensures Knows(w, id, m')
  {
  }

  lemma ConnectingIsSound(w: World, c: Conn, id: string, m: Memory, m': Memory)
    requires Safe(w, id) && Knows(w, id, m) && StepOf(m, w, Catalog(id, c, Acked), id, m')
    ensures Knows(w, id, m')
  {
  }

  lemma PutIsSound(w: World, path: string, secret: Secret, o: Outcome, id: string, m: Memory)
    requires NoSlash(id) && Safe(w, id) && Knows(w, id, m) && StepOf(m, w, VaultPut(path, secret, o), id, m)
    ensures Allowed(w, VaultPut(path, secret, o), id) && Knows(Perform(w, VaultPut(path, secret, o)), id, m)
  {
    PutWrites(w, path, secret, o);
    DefaultPathIsApart(w.mount, id, "instance_admin");
  }

  lemma AlterIsSound(w: World, c: Conn, stmt: Stmt, o: Outcome, id: string, m: Memory, m': Memory)
    requires Safe(w, id) && Knows(w, id, m) && StepOf(m, w, Sql(id, c, stmt, o), id, m')
    ensures Allowed(w, Sql(id, c, stmt, o), id) && Knows(Perform(w, Sql(id, c, stmt, o)), id, m')
  {
    StatementsTakeEffect(w, id, c, stmt, o);
  }

  /** Every act of the program is one that keeps the live credential, and what it then relies on is true. */
  lemma ProgramIsSound(w: World, act: Act, id: string, m: Memory, m': Memory)
    requires NoSlash(id) && Safe(w, id) && Knows(w, id, m) && Step(m, w, act, id, m') && !act.Disturbed?
    ensures Allowed(w, act, id) && Knows(Perform(w, act), id, m')
  {
    var start := if StepOf(m, w, act, id, m') then m else Nothing;
    match act
    case VaultGet(path, o) =>
      hide Perform, Knows, Learns, Answer;
      ReadsChangeNothing(w, act);
      if m' != start {
        if path == AdminPath(w.mount, id) && Learns(start, w, id, m') {
          LearningIsSound(w, id, start, m');
        } else {
          DefaultIsKnown(w, id, m');
        }
      }
    case Catalog(id', c, o) =>
      hide Perform, Knows, CanConnect;
      ReadsChangeNothing(w, act);
      if m' != start {
        ConnectingIsSound(w, c, id, start, m');
      }
    case VaultPut(path, secret, o) =>
      hide Perform, Knows, Allowed;
      PutIsSound(w, path, secret, o, id, start);
    case Sql(id', c, stmt, o) =>
      hide Perform, Knows, Allowed, Accepted;
      AlterIsSound(w, c, stmt, o, id, start, m');
    case SaveConnected(id', _, _) =>
      hide Knows;
      SavingKeepsKnowledge(w, act, id, m');
  }

  lemma DefaultIsKnown(w: World, id: string, m: Memory)
    requires m.Default? && Knows(w, id, Absent) && Answer(w, ReadDefault) == Credentials(m.creds.name, m.creds.password)
    ensures Knows(w, id, m)
  {
  }

  lemma SavingKeepsKnowledge(w: World, act: Act, id: string, m: Memory)
    requires act.SaveConnected? && Knows(w, id, m)
    ensures Knows(Perform(w, act), id, m)
  {
    var w' := Perform(w, act);
    assert w'.vault == w.vault && w'.servers == w.servers && w'.mount == w.mount && w'.admins == w.admins;
    assert Unchanged(w, w', id);
    hide Perform;
    KnowledgeStays(w, w', id, m);
  }
}
