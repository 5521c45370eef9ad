/**
 The user password protocol: a password in Vault, in PostgreSQL and, hashed, in the status of the User object.
 The hash is an arbitrary function of the password.
 */
module UserPasswords {
  import opened Basics
  import opened Cluster
  import opened VaultStore
  import opened PostgresOps
  import opened AdminSteps
  import opened AdminCredentials

  // -------------------------------------------------------------- new passwords

  const CHARSET: string :=
    "abcdefghijklmnopqrstuvwxyz" + "ABCDEFGHIJKLMNOPQRSTUVWXYZ" + "0123456789" + "!@#$%^&*()_+-=[]{}|;:,.<>?"

  predicate WellFormed(password: string, length: nat) {
    |password| == length && forall k :: 0 <= k < |password| ==> password[k] in CHARSET
  }

  /** The loop that fills the buffer. */
  method RandomText(r: Remote, charset: string, length: nat) returns (text: Option<string>)
    requires r.Valid() && charset != ""
    modifies r`calls
    ensures r.Grew()
    ensures text.Some? ==> |text.value| == length && forall k :: 0 <= k < length ==> text.value[k] in charset
    ensures r.Calm(old(r.calls)) ==> text.Some?
  {
    hide Replayed;
    var buffer := new char[length](_ => ' ');
    for k := 0 to length
      invariant r.Grew()
      invariant forall j :: 0 <= j < k ==> buffer[j] in charset
    {
      var n := r.RandomBelow(|charset|);
      if n.None? {
        return None;
      }
      buffer[k] := charset[n.value];
    }
    assert forall j :: 0 <= j < length ==> buffer[..][j] == buffer[j];
    text := Some(buffer[..]);
  }

  method GenerateRandomPassword(r: Remote, length: nat) returns (password: Option<string>)
    requires r.Valid()
    modifies r`calls
    ensures r.Grew()
    ensures password.Some? ==> WellFormed(password.value, length)
    ensures r.Calm(old(r.calls)) ==> password.Some?
  {
    hide Replayed;
    password := RandomText(r, CHARSET, length);
  }

  // ------------------------------------------------------------------ vocabulary

  /** What Vault has for a user, as a working read reports it. */
  function Stored(w: World, id: string, username: string): Reply {
    Answer(w, ReadUser(id, username))
  }

  /** Users that the operator may manage: IDs are single path segments, administrators are not users. */
  predicate Manageable(w: World, id: string, username: string) {
    NoSlash(id) && username != "instance_admin" && username !in w.admins
  }

  /** Nobody else writes this secret. */
  predicate Quiet(act: Act, id: string, username: string) {
    act.Disturbed? && act.who.OtherSecret? ==> act.who.id != id || act.who.username != username
  }

  /** A read of a stored password succeeds. */
  ghost predicate ReadWorks(w: World, act: Act, id: string, username: string) {
    act.VaultGet? && act.path == UserPath(w.mount, id, username) && Stored(w, id, username).Password? ==>
      act.outcome == Acked
  }

  ghost predicate Kept(w: World, w': World, id: string, username: string) {
    Stored(w, id, username).Password? ==> Stored(w', id, username) == Stored(w, id, username)
  }

  lemma OthersKeepStored(w: World, act: Act, id: string, username: string)
    requires Manageable(w, id, username) && Quiet(act, id, username) && !act.VaultPut?
    ensures Stored(Perform(w, act), id, username) == Stored(w, id, username)
    ensures Manageable(Perform(w, act), id, username)
  {
    hide Perform, Disturb, Answer;
    ActsKeepTheFrame(w, act);
    if act.Disturbed? {
      PerformDisturbs(w, act.who);
      DisturbKeepsUserSecret(w, act.who, id, username);
    } else {
      OnlyPutsChangeVault(w, act);
    }
    SameSecretSameAnswer(w, Perform(w, act), id, username);
  }

  lemma OnlyPutsChangeVault(w: World, act: Act)
    requires !act.VaultPut? && !act.Disturbed?
    ensures Perform(w, act).vault == w.vault
  {
  }

  lemma DisturbKeepsUserSecret(w: World, a: Outside, id: string, username: string)
    requires Manageable(w, id, username) && Quiet(Disturbed(a), id, username)
    ensures var path, w' := UserPath(w.mount, id, username), Disturb(w, a);
            (path in w'.vault <==> path in w.vault) && (path in w.vault ==> w'.vault[path] == w.vault[path])
  {
    match a
    case RequestRotation(id', _) =>
      if NoSlash(id') && AdminPath(w.mount, id') == UserPath(w.mount, id, username) {
        PathsAreInjective(w.mount, id', "instance_admin", id, username);
      }
    case OtherSecret(id', username', _) =>
      if NoSlash(id') && UserPath(w.mount, id', username') == UserPath(w.mount, id, username) {
        PathsAreInjective(w.mount, id', username', id, username);
      }
    case _ =>
  }

  lemma SameSecretSameAnswer(w: World, w': World, id: string, username: string)
    requires w'.mount == w.mount
    requires var path := UserPath(w.mount, id, username);
             (path in w'.vault <==> path in w.vault) && (path in w.vault ==> w'.vault[path] == w.vault[path])
    ensures Stored(w', id, username) == Stored(w, id, username)
  {
  }

  /** Without writes, what is stored stays the same from one end of a window to the other. */
  lemma {:induction false} StoredStays(h: seq<World>, t: seq<Act>, from: nat, upto: nat, id: string, username: string)
    requires Replayed(h, t) && from <= upto <= |t| && Manageable(h[from], id, username)
    requires forall i :: from <= i < upto ==> Quiet(t[i], id, username) && !t[i].VaultPut?
    ensures Stored(h[upto], id, username) == Stored(h[from], id, username) && Manageable(h[upto], id, username)
    decreases upto
  {
    if from < upto {
      hide *;
      StoredStays(h, t, from, upto - 1, id, username);
      ReplayedAt(h, t, upto - 1);
      OthersKeepStored(h[upto - 1], t[upto - 1], id, username);
    }
  }

  lemma StoredPhase(h: seq<World>, t: seq<Act>, from: nat, upto: nat, id: string, username: string)
    requires Replayed(h, t) && |h| == |t| + 1 && from <= upto <= |t| && Manageable(h[from], id, username)
    requires forall i :: from <= i < upto ==> Quiet(t[i], id, username) && !t[i].VaultPut?
    ensures Stored(h[upto], id, username) == Stored(h[from], id, username) && Manageable(h[upto], id, username)
    ensures forall i :: from <= i < upto ==> Stored(h[i], id, username) == Stored(h[from], id, username)
  {
    hide *;
    forall i | from <= i < upto
      ensures Stored(h[i], id, username) == Stored(h[from], id, username)
    {
      StoredStays(h, t, from, i, id, username);
    }
    StoredStays(h, t, from, upto, id, username);
  }

  predicate NothingElseStored(w: World, id: string, username: string, password: string) {
    Stored(w, id, username).Password? ==> Stored(w, id, username) == Password(password)
  }

  /** While a password is being written where none was, nothing but that password is ever stored. */
  lemma {:induction false} StoringStays(h: seq<World>, t: seq<Act>, from: nat, upto: nat, id: string, username: string,
                                      password: string)
    requires Replayed(h, t) && from <= upto <= |t| && Manageable(h[from], id, username) && password != ""
    requires NothingElseStored(h[from], id, username, password)
    requires forall i :: from <= i < upto ==>
               Quiet(t[i], id, username) && WriteAct(h[i], t[i], StoreUser(id, username, password))
    ensures NothingElseStored(h[upto], id, username, password)
    ensures Manageable(h[upto], id, username)
    decreases upto
  {
    if from < upto {
      hide *;
      StoringStays(h, t, from, upto - 1, id, username, password);
      ReplayedAt(h, t, upto - 1);
      StoreStep(h[upto - 1], t[upto - 1], id, username, password);
    }
  }

  lemma StorePhase(h: seq<World>, t: seq<Act>, from: nat, upto: nat, id: string, username: string,
                                      password: string)
    requires Replayed(h, t) && |h| == |t| + 1 && from <= upto <= |t| && Manageable(h[from], id, username)
             && password != ""
    requires NothingElseStored(h[from], id, username, password)
    requires forall i :: from <= i < upto ==>
               Quiet(t[i], id, username) && WriteAct(h[i], t[i], StoreUser(id, username, password))
    ensures NothingElseStored(h[upto], id, username, password)
    ensures Manageable(h[upto], id, username)
    ensures forall i :: from <= i < upto ==> Kept(h[i], h[i + 1], id, username)
  {
    hide *;
    forall i | from <= i < upto
      ensures Kept(h[i], h[i + 1], id, username)
    {
      StoringStays(h, t, from, i, id, username, password);
      ReplayedAt(h, t, i);
      StoreStep(h[i], t[i], id, username, password);
    }
    StoringStays(h, t, from, upto, id, username, password);
  }

  lemma StoreStep(w: World, act: Act, id: string, username: string, password: string)
    requires Manageable(w, id, username) && password != ""
    requires NothingElseStored(w, id, username, password)
    requires Quiet(act, id, username) && WriteAct(w, act, StoreUser(id, username, password))
    ensures var w' := Perform(w, act);
            && NothingElseStored(w', id, username, password)
            && Manageable(w', id, username) && Kept(w, w', id, username)
  {
    if act.VaultPut? {
      PutWrites(w, act.path, act.secret, act.outcome);
    } else {
      OthersKeepStored(w, act, id, username);
    }
  }

  // ------------------------------------------------------------ the user's password

  /** What password handling may do: look, and write a password to this user's secret. */
  ghost predicate SecretAct(w: World, act: Act, id: string, username: string) {
    || act.Disturbed? || act.VaultGet?
    || (act.VaultPut? && act.path == UserPath(w.mount, id, username)
        && act.secret.Keys == {"password"} && act.secret["password"] != "")
  }

  /** No interference with this secret and no refused read of it, from one end of a window to the other. */
  ghost predicate Undisturbed(h: seq<World>, t: seq<Act>, from: nat, upto: nat, id: string, username: string)
    requires upto <= |t| < |h|
  {
    forall i :: from <= i < upto ==> Quiet(t[i], id, username) && ReadWorks(h[i], t[i], id, username)
  }

  /** Nothing stored is changed in a window. */
  ghost predicate KeptAll(h: seq<World>, from: nat, upto: nat, id: string, username: string)
    requires upto < |h|
  {
    forall i :: from <= i < upto ==> Kept(h[i], h[i + 1], id, username)
  }

  lemma StoredIsNotEmpty(w: World, id: string, username: string)
    ensures Stored(w, id, username).Failed? || (Stored(w, id, username).Password? && Stored(w, id, username).text != "")
  {
  }

  /** What an undisturbed read phase says about what is stored. */
  lemma AfterRead(h: seq<World>, t: seq<Act>, from: nat, upto: nat, id: string, username: string)
    requires Replayed(h, t) && |h| == |t| + 1 && from <= upto <= |t| && Manageable(h[from], id, username)
    requires forall i :: from <= i < upto ==> ReadAct(t[i], UserPath(h[from].mount, id, username))
    requires Undisturbed(h, t, from, upto, id, username)
    ensures Stored(h[upto], id, username) == Stored(h[from], id, username) && Manageable(h[upto], id, username)
    ensures KeptAll(h, from, upto, id, username)
    ensures upto > from && t[upto - 1].VaultGet? && Refused(h[upto - 1], t[upto - 1], ReadUser(id, username)) ==>
              !Stored(h[from], id, username).Password?
  {
    hide Perform, Replayed, Answer, Manageable;
    StoredPhase(h, t, from, upto, id, username);
    if from < upto {
      FrameStays(h, t, from, upto - 1);
    }
  }

  /** Generate, then store; a failure to store is not a failure. */
  method StoreGeneratedPassword(r: Remote, cfg: Config, id: string, username: string) returns (password: string)
    requires r.Valid() && Manageable(r.world, id, username)
    modifies r
    ensures r.Grew()
    ensures forall i :: |old(r.trace)| <= i < |r.trace| ==> SecretAct(r.history[i], r.trace[i], id, username)
    ensures !Stored(old(r.world), id, username).Password?
            && Undisturbed(r.history, r.trace, |old(r.trace)|, |r.trace|, id, username) ==>
              && KeptAll(r.history, |old(r.trace)|, |r.trace|, id, username)
              && NothingElseStored(r.world, id, username, password)
    ensures cfg.vaultRetries < 1 ==> r.trace == old(r.trace)
    ensures r.Calm(old(r.calls)) && cfg.vaultRetries >= 1 ==>
              WellFormed(password, 32) && r.world == Written(old(r.world), StoreUser(id, username, password))
  {
    hide Perform, Disturb, Replayed, ReadWorks, Quiet, Answer, Manageable, Kept, Written;
    ghost var n := |r.trace|;
    var generated := GenerateRandomPassword(r, 32);
    if generated.None? {
      return "";
    }
    password := generated.value;
    var ok := WriteWithRetry(r, StoreUser(id, username, password), cfg.vaultRetries, cfg.vaultBase);
    if !Stored(r.history[n], id, username).Password? && Undisturbed(r.history, r.trace, n, |r.trace|, id, username) {
      StorePhase(r.history, r.trace, n, |r.trace|, id, username, password);
    }
  }

  /** Vault's password, or a new one stored in Vault; the new one is used even if storing it failed. */
  method HandleVaultUserPassword(r: Remote, cfg: Config, id: string, username: string, updatePassword: bool)
    returns (password: string)
    requires r.Valid() && Manageable(r.world, id, username)
    modifies r
    ensures r.Grew()
    ensures forall i :: |old(r.trace)| <= i < |r.trace| ==> SecretAct(r.history[i], r.trace[i], id, username)
    // A stored password that can be read is never replaced unless the User asks for it.
    ensures !updatePassword && Undisturbed(r.history, r.trace, |old(r.trace)|, |r.trace|, id, username) ==>
              && KeptAll(r.history, |old(r.trace)|, |r.trace|, id, username)
              && (Stored(old(r.world), id, username).Password? && cfg.vaultRetries >= 1 ==>
                    Stored(old(r.world), id, username) == Password(password) == Stored(r.world, id, username))
              // So what is stored afterwards, if anything, is the password that will be used.
              && (cfg.vaultRetries >= 1 ==> NothingElseStored(r.world, id, username, password))
    ensures r.Calm(old(r.calls)) && cfg.vaultRetries >= 1 ==>
              if Stored(old(r.world), id, username).Password? && !updatePassword
              then r.world == old(r.world) && Stored(r.world, id, username) == Password(password)
              else WellFormed(password, 32) && r.world == Written(old(r.world), StoreUser(id, username, password))
  {
    hide Perform, Disturb, Replayed, ReadWorks, Quiet, Answer, Manageable, Kept, Written, WellFormed, Refused, KeptAll,
         Undisturbed;
    ghost var n0 := |r.trace|;
    var reply := ReadWithRetry(r, ReadUser(id, username), cfg.vaultRetries, cfg.vaultBase);
    ghost var n1 := |r.trace|;
    StoredIsNotEmpty(r.world, id, username);
    ManageableStays(r.history[n0], r.world, id, username);
    if reply.Password? && !updatePassword {
      password := reply.text;
    } else {
      password := StoreGeneratedPassword(r, cfg, id, username);
    }
    if !updatePassword && Undisturbed(r.history, r.trace, n0, |r.trace|, id, username) {
      UndisturbedParts(r.history, r.trace, n0, n1, |r.trace|, id, username);
      AfterRead(r.history, r.trace, n0, n1, id, username);
      KeptParts(r.history, n0, n1, |r.trace|, id, username);
    }
  }

  lemma ManageableStays(w: World, w': World, id: string, username: string)
    requires Manageable(w, id, username) && w'.admins == w.admins
    ensures Manageable(w', id, username)
  {
  }

  lemma UndisturbedParts(h: seq<World>, t: seq<Act>, a: nat, b: nat, c: nat, id: string, username: string)
    requires a <= b <= c <= |t| < |h| && Undisturbed(h, t, a, c, id, username)
    ensures Undisturbed(h, t, a, b, id, username) && Undisturbed(h, t, b, c, id, username)
  {
  }

  lemma KeptParts(h: seq<World>, a: nat, b: nat, c: nat, id: string, username: string)
    requires a <= b <= c < |h|
    ensures KeptAll(h, a, b, id, username) && KeptAll(h, b, c, id, username) ==> KeptAll(h, a, c, id, username)
  {
  }

  // ------------------------------------------------------------------ the status

  predicate UserStatement(stmt: Stmt, username: string) {
    (stmt.AlterUser? || stmt.CreateUser?) && stmt.name == username
  }

  /** PostgreSQL took a password whose hash is `value`, and said so. */
  ghost predicate Acknowledged(w: World, act: Act, id: string, username: string, hash: string -> string,
                               value: string) {
    && act.Sql? && act.id == id && act.outcome == Acked && Accepted(w, id, act.conn, act.stmt)
    && UserStatement(act.stmt, username) && hash(act.stmt.password) == value
  }

  ghost predicate AcknowledgedIn(h: seq<World>, t: seq<Act>, from: nat, upto: nat, id: string, username: string,
                                 hash: string -> string, value: string)
    requires upto <= |t| < |h|
  {
    exists j :: from <= j < upto && Acknowledged(h[j], t[j], id, username, hash, value)
  }

  /** The server took a password of this user, and said so. */
  ghost predicate Taken(w: World, act: Act, id: string, username: string) {
    act.Sql? && act.id == id && act.outcome == Acked && Accepted(w, id, act.conn, act.stmt)
    && UserStatement(act.stmt, username)
  }

  /** A status that is saved carries the hash it had or one acknowledged before, and `created` only if it is true. */
  ghost predicate Earned(h: seq<World>, t: seq<Act>, from: nat, i: nat, u: UserObject, hash: string -> string)
    requires i < |t| < |h|
  {
    t[i].SaveUser? ==>
      && (t[i].hash == u.hash || AcknowledgedIn(h, t, from, i, u.id, u.username, hash, t[i].hash))
      && (t[i].created ==> u.created || exists j :: from <= j < i && Taken(h[j], t[j], u.id, u.username))
  }

  /** Everything a reconcile of this user may do. */
  ghost predicate UserAct(w: World, act: Act, name: string, id: string, username: string) {
    match act
    case VaultPut(_, _, _) => SecretAct(w, act, id, username)
    case Sql(id', _, stmt, _) => id' == id && UserStatement(stmt, username)
    case SaveUser(name', _, _, _) => name' == name
    case SaveConnected(_, _, _) => false
    case ObjectUpdate(_, _) => false
    case ObjectStatus(_, _) => false
    case _ => true
  }

  lemma OnlySavingChangesUsers(w: World, act: Act)
    requires !act.SaveUser?
    ensures Perform(w, act).users == w.users
  {
  }

  lemma {:induction false} UsersPhase(h: seq<World>, t: seq<Act>, from: nat, upto: nat)
    requires Replayed(h, t) && from <= upto <= |t|
    requires forall i :: from <= i < upto ==> !t[i].SaveUser?
    ensures h[upto].users == h[from].users
    decreases upto
  {
    if from < upto {
      hide *;
      UsersPhase(h, t, from, upto - 1);
      ReplayedAt(h, t, upto - 1);
      OnlySavingChangesUsers(h[upto - 1], t[upto - 1]);
    }
  }

  lemma Saving(w: World, name: string, created: bool, hash: string, o: Outcome)
    ensures var w' := Perform(w, SaveUser(name, created, hash, o));
            && w' == w.(users := w'.users)
            && (o != Dropped && name in w.users ==>
                  w'.users == w.users[name := w.users[name].(created := created, hash := hash)])
            && (o == Dropped || name !in w.users ==> w'.users == w.users)
  {
  }

  /** Acts of a synchronisation: looking, and statements that set exactly this password. */
  predicate SyncAct(act: Act, name: string, id: string, username: string, password: string) {
    match act
    case Disturbed(_) => true
    case Catalog(_, _, _) => true
    case Sql(id', _, stmt, _) => id' == id && UserStatement(stmt, username) && stmt.password == password
    case SaveUser(name', _, _, _) => name' == name
    case _ => false
  }

  method ApplyPassword(r: Remote, cfg: Config, hash: string -> string, name: string, u: UserObject, admin: Login,
                       password: string)
    returns (ok: bool)
    requires r.Valid()
    modifies r
    ensures r.Grew() && r.world.users == old(r.world).users
    ensures forall i :: |old(r.trace)| <= i < |r.trace| ==>
              SyncAct(r.trace[i], name, u.id, u.username, password) && !r.trace[i].SaveUser?
    ensures ok ==>
              |r.trace| > |old(r.trace)|
              && Acknowledged(r.history[|r.trace| - 1], r.trace[|r.trace| - 1], u.id, u.username, hash, hash(password))
    ensures r.Calm(old(r.calls)) && cfg.pgRetries >= 1
            && Feasible(old(r.world), u.id, admin, SyncUser(u.username, password)) ==>
              ok && r.world == WithUser(old(r.world), u.id, u.username, password)
  {
    hide Perform, Disturb, Replayed, Apply, CanConnect, Feasible, WithUser, OpAct, Issues, SyncAct, Succeeded;
    ghost var n := |r.trace|;
    ok := ExecuteOperationWithRetry(r, u.id, admin, SyncUser(u.username, password), cfg.pgRetries, cfg.pgBase);
    forall i | n <= i < |r.trace|
      ensures SyncAct(r.trace[i], name, u.id, u.username, password) && !r.trace[i].SaveUser?
    {
      OpActIsSync(r.history[i], r.trace[i], name, u, admin, password);
    }
    UsersPhase(r.history, r.trace, n, |r.trace|);
  }

  lemma OpActIsSync(w: World, act: Act, name: string, u: UserObject, admin: Login, password: string)
    requires OpAct(w, act, u.id, admin, SyncUser(u.username, password))
    ensures SyncAct(act, name, u.id, u.username, password) && !act.SaveUser?
  {
  }

  /** `syncUser`: the statement in PostgreSQL, then the status. */
  method SyncUserAndStatus(r: Remote, cfg: Config, hash: string -> string, name: string, u: UserObject, admin: Login,
                           password: string)
    returns (ok: bool)
    requires r.Valid() && name in r.world.users && r.world.users[name] == u
    modifies r
    ensures r.Grew()
    ensures forall i :: |old(r.trace)| <= i < |r.trace| ==>
              SyncAct(r.trace[i], name, u.id, u.username, password)
              && Earned(r.history, r.trace, |old(r.trace)|, i, u, hash)
    ensures name in r.world.users
            && (r.world.users[name].hash == u.hash
                || AcknowledgedIn(r.history, r.trace, |old(r.trace)|, |r.trace|, u.id, u.username, hash,
                                  r.world.users[name].hash))
    ensures r.Calm(old(r.calls)) && cfg.pgRetries >= 1 && password != ""
            && Feasible(old(r.world), u.id, admin, SyncUser(u.username, password)) ==>
              ok && r.world == WithStatus(WithUser(old(r.world), u.id, u.username, password), name, hash(password))
  {
    hide Perform, Disturb, Replayed, Apply, CanConnect, Feasible, WithUser;
    ok := ApplyPassword(r, cfg, hash, name, u, admin, password);
    ghost var n := |r.trace|;
    var newHash := if ok && password != "" then hash(password) else u.hash;
    assert ok ==> Acknowledged(r.history[n - 1], r.trace[n - 1], u.id, u.username, hash, hash(password));
    OnlySavingChangesUsers(r.world, Disturbed(r.OthersAt(r.calls)));
    PerformDisturbs(r.world, r.OthersAt(r.calls));
    Saving(r.Met(), name, ok, newHash, r.Fate(r.calls));
    var saved := r.PersistUser(name, ok, newHash);
    ok := ok && saved;
  }

  /** The status after a successful synchronisation. */
  function WithStatus(w: World, name: string, hash: string): World {
    if name in w.users then w.(users := w.users[name := w.users[name].(created := true, hash := hash)]) else w
  }

  // ------------------------------------------------------------------ reconcile

  /** What every window of a reconcile satisfies, under any faults. */
  ghost predicate UserWindow(h: seq<World>, t: seq<Act>, from: nat, upto: nat, name: string, u: UserObject,
                             hash: string -> string)
    requires upto <= |t| < |h|
  {
    forall i :: from <= i < upto ==> UserAct(h[i], t[i], name, u.id, u.username) && Earned(h, t, from, i, u, hash)
  }

  /** A statement goes to this instance and sends the password that is stored, if one is. */
  ghost predicate SendsStored(w: World, act: Act, id: string, username: string) {
    act.Sql? ==>
      && act.id == id
      && (Stored(w, id, username).Password? ==> SendsPassword(act.stmt, username, Stored(w, id, username).text))
  }

  predicate SendsPassword(stmt: Stmt, username: string, text: string) {
    stmt == AlterUser(username, text) || stmt == CreateUser(username, text)
  }

  /** Once stored, a password survives, and every statement from then on sets exactly it. */
  ghost predicate Faithful(h: seq<World>, t: seq<Act>, from: nat, upto: nat, id: string, username: string)
    requires from <= upto <= |t| < |h|
  {
    && KeptAll(h, from, upto, id, username)
    && forall i :: from <= i < upto ==> SendsStored(h[i], t[i], id, username)
  }

  lemma NoWriteKeeps(h: seq<World>, t: seq<Act>, from: nat, upto: nat, id: string, username: string)
    requires Replayed(h, t) && |h| == |t| + 1 && from <= upto <= |t| && Manageable(h[from], id, username)
    requires Undisturbed(h, t, from, upto, id, username) && forall i :: from <= i < upto ==> !t[i].VaultPut?
    ensures KeptAll(h, from, upto, id, username)
    ensures Stored(h[upto], id, username) == Stored(h[from], id, username) && Manageable(h[upto], id, username)
  {
    hide Perform, Replayed, Answer, Manageable;
    StoredPhase(h, t, from, upto, id, username);
  }

  /** Windows join. */
  lemma FaithfulParts(h: seq<World>, t: seq<Act>, a: nat, b: nat, c: nat, id: string, username: string)
    requires a <= b <= c <= |t| < |h|
    ensures Faithful(h, t, a, b, id, username) && Faithful(h, t, b, c, id, username) ==>
              Faithful(h, t, a, c, id, username)
  {
    hide Answer;
  }

  lemma WindowParts(h: seq<World>, t: seq<Act>, a: nat, b: nat, c: nat, name: string, u: UserObject,
                    hash: string -> string)
    requires a <= b <= c <= |t| < |h|
    requires UserWindow(h, t, a, b, name, u, hash) && UserWindow(h, t, b, c, name, u, hash)
    ensures UserWindow(h, t, a, c, name, u, hash)
  {
    hide UserAct, Acknowledged;
    forall i | a <= i < c
      ensures Earned(h, t, a, i, u, hash)
    {
      if i >= b {
        assert Earned(h, t, b, i, u, hash);
      } else {
        assert Earned(h, t, a, i, u, hash);
      }
    }
  }

  /** The administrator's credentials as a working read reports them; empty without Vault or if there are none. */
  function AdminOf(w: World, cfg: Config, id: string): Login {
    var found := Answer(w, ReadAdmin(id));
    if cfg.vault && found.Credentials? then Login(found.login, found.password) else Login("", "")
  }

  /** An answer with usable credentials. */
  ghost predicate Answers(w: World, act: Act, id: string) {
    act.VaultGet? && act.outcome == Acked && Answer(w, ReadAdmin(id)).Credentials?
  }

  /** `resolveAdminCredentials`; a failure is not fatal, the credentials are then empty. */
  method ResolveAdminCredentials(r: Remote, cfg: Config, id: string) returns (admin: Login)
    requires r.Valid()
    modifies r
    ensures r.Grew()
    ensures forall i :: |old(r.trace)| <= i < |r.trace| ==> ReadAct(r.trace[i], AdminPath(r.world.mount, id))
    // Empty exactly if no read brought usable credentials; otherwise they are what Vault has.
    ensures admin == Login("", "") <==>
              forall i :: |old(r.trace)| <= i < |r.trace| ==> !Answers(r.history[i], r.trace[i], id)
    ensures admin != Login("", "") ==> admin == AdminOf(r.world, cfg, id)
    ensures r.Calm(old(r.calls)) ==> r.world == old(r.world)
    ensures r.Calm(old(r.calls)) && (cfg.vault ==> cfg.vaultRetries >= 1) ==> admin == AdminOf(r.world, cfg, id)
  {
    hide Perform, Disturb, Replayed, Answer, ReadAct;
    admin := Login("", "");
    if !cfg.vault {
      return;
    }
    ghost var n := |r.trace|;
    CredentialsAreNotEmpty(r.world, id);
    var reply := ReadWithRetry(r, ReadAdmin(id), cfg.vaultRetries, cfg.vaultBase);
    CredentialsAreNotEmpty(r.world, id);
    if |r.trace| > n && r.trace[|r.trace| - 1].VaultGet? {
      LastReadAnswers(r.history, r.trace);
    }
    if reply.Credentials? {
      admin := Login(reply.login, reply.password);
      assert Answers(r.history[|r.trace| - 1], r.trace[|r.trace| - 1], id);
    }
  }

  lemma CredentialsAreNotEmpty(w: World, id: string)
    ensures var a := Answer(w, ReadAdmin(id)); (a.Credentials? ==> a.login != "") && !a.Password?
  {
  }

  /** Vault's or a new password, then PostgreSQL, then the status. */
  method HandleAndSync(r: Remote, cfg: Config, hash: string -> string, name: string, u: UserObject, admin: Login)
    returns (password: string)
    requires r.Valid() && Manageable(r.world, u.id, u.username)
    requires name in r.world.users && r.world.users[name] == u
    modifies r
    ensures r.Grew()
    ensures UserWindow(r.history, r.trace, |old(r.trace)|, |r.trace|, name, u, hash)
    ensures HashEarned(r.history, r.trace, |old(r.trace)|, name, u, hash)
    ensures !u.updatePassword && Undisturbed(r.history, r.trace, |old(r.trace)|, |r.trace|, u.id, u.username)
            && cfg.vault && cfg.vaultRetries >= 1 ==>
              Faithful(r.history, r.trace, |old(r.trace)|, |r.trace|, u.id, u.username)
    ensures r.Calm(old(r.calls)) && cfg.vault && cfg.vaultRetries >= 1 && cfg.pgRetries >= 1
            && Feasible(old(r.world), u.id, admin, SyncUser(u.username, password)) ==>
              && r.world == Stabilised(old(r.world), name, u, password, hash(password))
              && (if KeepsStored(old(r.world), u) then Stored(old(r.world), u.id, u.username) == Password(password)
                  else WellFormed(password, 32))
  {
    hide Perform, Disturb, Replayed, Answer, Manageable, Kept, KeptAll, ReadWorks, Quiet, Feasible, WithUser,
         WellFormed, WriteAct, Earned, UserAct, SecretAct, SyncAct, Undisturbed, UserWindow, Faithful;
    ghost var n0 := |r.trace|;
    password := "";
    if cfg.vault {
      password := HandleVaultUserPassword(r, cfg, u.id, u.username, u.updatePassword);
    }
    ghost var h1, t1 := r.history, r.trace;
    SecretActsOnly(h1, t1, n0, |t1|, name, u, hash);
    StoredIsNotEmpty(h1[n0], u.id, u.username);
    NewIsNotEmpty(password);
    StoringKeepsFeasible(h1[n0], u.id, admin, u.username, password);
    ManageableStays(h1[n0], r.world, u.id, u.username);
    if password != "" || !cfg.vault {
      var ok := SyncUserAndStatus(r, cfg, hash, name, u, admin, password);
    }
    SyncActsOnly(r.history, r.trace, |t1|, |r.trace|, name, u, hash, password);
    WindowGrows(h1, t1, r.history, r.trace, n0, name, u, hash);
    WindowParts(r.history, r.trace, n0, |t1|, |r.trace|, name, u, hash);
    if !u.updatePassword && cfg.vault && cfg.vaultRetries >= 1
       && Undisturbed(r.history, r.trace, n0, |r.trace|, u.id, u.username) {
      UndisturbedParts(r.history, r.trace, n0, |t1|, |r.trace|, u.id, u.username);
      SyncIsFaithful(r.history, r.trace, n0, |t1|, |r.trace|, name, u, password);
    }
  }

  lemma NewIsNotEmpty(password: string)
    ensures WellFormed(password, 32) ==> password != ""
  {
  }

  lemma StoringKeepsFeasible(w: World, id: string, admin: Login, username: string, password: string)
    ensures Feasible(Written(w, StoreUser(id, username, password)), id, admin, SyncUser(username, password))
            <==> Feasible(w, id, admin, SyncUser(username, password))
  {
  }

  lemma WindowGrows(h1: seq<World>, t1: seq<Act>, h: seq<World>, t: seq<Act>, from: nat, name: string, u: UserObject,
                    hash: string -> string)
    requires from <= |t1| < |h1| && h1 <= h && t1 <= t && |t| < |h|
    ensures UserWindow(h1, t1, from, |t1|, name, u, hash) ==> UserWindow(h, t, from, |t1|, name, u, hash)
    ensures KeptAll(h1, from, |t1|, u.id, u.username) <==> KeptAll(h, from, |t1|, u.id, u.username)
    ensures Undisturbed(h1, t1, from, |t1|, u.id, u.username) <==> Undisturbed(h, t, from, |t1|, u.id, u.username)
  {
    hide UserAct, Acknowledged, Kept, Quiet, ReadWorks;
    if UserWindow(h1, t1, from, |t1|, name, u, hash) {
      forall i | from <= i < |t1|
        ensures Earned(h, t, from, i, u, hash)
      {
        assert Earned(h1, t1, from, i, u, hash);
      }
    }
  }

  /** Without a request for a new one, a stored password is kept. */
  predicate KeepsStored(w: World, u: UserObject) {
    Stored(w, u.id, u.username).Password? && !u.updatePassword
  }

  /** Vault, PostgreSQL and the status agree on the password; nothing else has changed. */
  function Stabilised(w: World, name: string, u: UserObject, password: string, hash: string): World
    requires u.id in w.servers
  {
    var v := if KeepsStored(w, u) then w else Written(w, StoreUser(u.id, u.username, password));
    WithStatus(WithUser(v, u.id, u.username, password), name, hash)
  }

  ghost predicate HashEarned(h: seq<World>, t: seq<Act>, from: nat, name: string, u: UserObject, hash: string -> string)
    requires |h| == |t| + 1
  {
    var w := h[|t|];
    name in w.users
    && (w.users[name].hash == u.hash || AcknowledgedIn(h, t, from, |t|, u.id, u.username, hash, w.users[name].hash))
  }

  lemma SecretActsOnly(h: seq<World>, t: seq<Act>, from: nat, upto: nat, name: string, u: UserObject,
                       hash: string -> string)
    requires Replayed(h, t) && from <= upto <= |t|
    requires forall i :: from <= i < upto ==> SecretAct(h[i], t[i], u.id, u.username)
    ensures UserWindow(h, t, from, upto, name, u, hash)
    ensures h[upto].users == h[from].users
  {
    hide Perform;
    UsersPhase(h, t, from, upto);
  }

  lemma SyncActsOnly(h: seq<World>, t: seq<Act>, from: nat, upto: nat, name: string, u: UserObject,
                     hash: string -> string, password: string)
    requires from <= upto <= |t| < |h|
    requires forall i :: from <= i < upto ==>
              SyncAct(t[i], name, u.id, u.username, password) && Earned(h, t, from, i, u, hash)
    ensures UserWindow(h, t, from, upto, name, u, hash)
  {
    hide Earned;
  }

  lemma SyncIsFaithful(h: seq<World>, t: seq<Act>, a: nat, b: nat, c: nat, name: string, u: UserObject,
                       password: string)
    requires Replayed(h, t) && |h| == |t| + 1 && a <= b <= c <= |t| && Manageable(h[b], u.id, u.username)
    requires forall i :: a <= i < b ==> SecretAct(h[i], t[i], u.id, u.username)
    requires forall i :: b <= i < c ==> SyncAct(t[i], name, u.id, u.username, password)
    requires Undisturbed(h, t, b, c, u.id, u.username) && KeptAll(h, a, b, u.id, u.username)
    requires NothingElseStored(h[b], u.id, u.username, password)
    ensures Faithful(h, t, a, c, u.id, u.username)
  {
    hide Perform, Replayed, Answer, Manageable, Kept, ReadWorks, Quiet;
    StoredPhase(h, t, b, c, u.id, u.username);
    NoWriteKeeps(h, t, b, c, u.id, u.username);
    KeptParts(h, a, b, c, u.id, u.username);
  }

  /** Acts before the password is looked at; the status may be saved with the fields it had. */
  predicate PrepAct(act: Act, name: string, u: UserObject) {
    match act
    case SaveUser(name', created, hash, _) => name' == name && created == u.created && hash == u.hash
    case _ => act.Disturbed? || IsRead(act)
  }

  lemma PrepIsFaithful(h: seq<World>, t: seq<Act>, from: nat, upto: nat, name: string, u: UserObject,
                       hash: string -> string)
    requires Replayed(h, t) && |h| == |t| + 1 && from <= upto <= |t| && Manageable(h[from], u.id, u.username)
    requires forall i :: from <= i < upto ==> PrepAct(t[i], name, u)
    ensures UserWindow(h, t, from, upto, name, u, hash)
    ensures Undisturbed(h, t, from, upto, u.id, u.username) ==> Faithful(h, t, from, upto, u.id, u.username)
  {
    hide Perform, Replayed, Answer, Manageable, Kept, ReadWorks, Quiet;
    if Undisturbed(h, t, from, upto, u.id, u.username) {
      NoWriteKeeps(h, t, from, upto, u.id, u.username);
    }
  }

  /** Saving the status with the fields it had keeps the hash. */
  lemma {:induction false} PrepKeepsHash(h: seq<World>, t: seq<Act>, from: nat, upto: nat, name: string, u: UserObject)
    requires Replayed(h, t) && from <= upto <= |t|
    requires forall i :: from <= i < upto ==> PrepAct(t[i], name, u)
    requires name in h[from].users && h[from].users[name] == u
    ensures name in h[upto].users && h[upto].users[name] == u
    decreases upto
  {
    if from < upto {
      hide Perform, Replayed;
      PrepKeepsHash(h, t, from, upto - 1, name, u);
      ReplayedAt(h, t, upto - 1);
      var w, act := h[upto - 1], t[upto - 1];
      if act.SaveUser? {
        Saving(w, name, act.created, act.hash, act.outcome);
      } else {
        OnlySavingChangesUsers(w, act);
      }
    }
  }

  /**
   `resolvePostgresqlConnection`, then the administrator's credentials; without a connected instance the reconcile ends.
   */
  method ResolveUserConnection(r: Remote, cfg: Config, name: string, u: UserObject) returns (admin: Option<Login>)
    requires r.Valid()
    modifies r
    ensures r.Grew()
    ensures forall i :: |old(r.trace)| <= i < |r.trace| ==> PrepAct(r.trace[i], name, u)
    ensures cfg.vault && r.Calm(old(r.calls)) && cfg.vaultRetries >= 1 && InSync(old(r.world), u.id)
            && u.id in old(r.world).instances && old(r.world).instances[u.id] ==>
              r.world == old(r.world) && admin == Some(ListedLogin(r.world, u.id))
  {
    hide Perform, Disturb, Replayed, CanConnect, InSync;
    var connected := r.LookupInstance(u.id);
    if connected != Some(true) {
      var ok := r.PersistUser(name, u.created, u.hash);
      return None;
    }
    InSyncAnswers(r.world, u.id);
    var login := ResolveAdminCredentials(r, cfg, u.id);
    admin := Some(login);
  }

  /** A window of preparation before another window. */
  lemma JoinPrep(h: seq<World>, t: seq<Act>, a: nat, b: nat, name: string, u: UserObject, hash: string -> string)
    requires Replayed(h, t) && |h| == |t| + 1 && a <= b <= |t| && Manageable(h[a], u.id, u.username)
    requires forall i :: a <= i < b ==> PrepAct(t[i], name, u)
    ensures UserWindow(h, t, b, |t|, name, u, hash) ==> UserWindow(h, t, a, |t|, name, u, hash)
    ensures HashEarned(h, t, b, name, u, hash) ==> HashEarned(h, t, a, name, u, hash)
    ensures Undisturbed(h, t, a, |t|, u.id, u.username)
            && (Undisturbed(h, t, b, |t|, u.id, u.username) ==> Faithful(h, t, b, |t|, u.id, u.username)) ==>
              Faithful(h, t, a, |t|, u.id, u.username)
  {
    hide Perform, Replayed, Answer, Manageable, Kept, ReadWorks, Quiet, UserWindow, Faithful, Acknowledged, PrepAct;
    PrepIsFaithful(h, t, a, b, name, u, hash);
    if UserWindow(h, t, b, |t|, name, u, hash) {
      WindowParts(h, t, a, b, |t|, name, u, hash);
    }
    FaithfulParts(h, t, a, b, |t|, u.id, u.username);
  }

  /** What every reconcile of this user promises under any faults. */
  ghost predicate UserPromise(h: seq<World>, t: seq<Act>, from: nat, name: string, u: UserObject,
                              hash: string -> string,
                              cfg: Config)
    requires from <= |t| && |h| == |t| + 1
  {
    // Who is touched, and what a saved hash stands for.
    && UserWindow(h, t, from, |t|, name, u, hash)
    && HashEarned(h, t, from, name, u, hash)
    // A stored password that can be read is kept, and PostgreSQL is only ever told that one.
    && (!u.updatePassword && Undisturbed(h, t, from, |t|, u.id, u.username) && cfg.vault && cfg.vaultRetries >= 1 ==>
          Faithful(h, t, from, |t|, u.id, u.username))
  }

  /** The reconcile from the fetched copy on. */
  method ReconcileFetched(r: Remote, cfg: Config, hash: string -> string, name: string, u: UserObject)
    returns (password: string)
    requires r.Valid() && Manageable(r.world, u.id, u.username)
    requires name in r.world.users && r.world.users[name] == u
    modifies r
    ensures r.Grew()
    ensures UserPromise(r.history, r.trace, |old(r.trace)|, name, u, hash, cfg)
    ensures r.Calm(old(r.calls)) && cfg.vault && cfg.vaultRetries >= 1 && cfg.pgRetries >= 1
            && Ready(old(r.world), u) ==>
              Agreed(old(r.world), r.world, name, u, password, hash)
  {
    hide Perform, Disturb, Replayed, Answer, Manageable, UserWindow, Undisturbed, Faithful, PrepAct, WellFormed,
         InSync, CanConnect, Stabilised, HashEarned, Feasible, Ready;
    password := "";
    ghost var n0 := |r.trace|;
    ReadyMeans(r.world, u);
    var admin := ResolveUserConnection(r, cfg, name, u);
    ghost var n1 := |r.trace|;
    PrepKeepsHash(r.history, r.trace, n0, n1, name, u);
    ManageableStays(r.history[n0], r.world, u.id, u.username);
    StartOfWindow(r.history, r.trace, name, u, hash);
    if admin.Some? {
      password := HandleAndSync(r, cfg, hash, name, u, admin.value);
    }
    JoinPrep(r.history, r.trace, n0, n1, name, u, hash);
  }

  /** Nothing is promised of an empty window but that the hash is the one it was. */
  lemma StartOfWindow(h: seq<World>, t: seq<Act>, name: string, u: UserObject, hash: string -> string)
    requires |h| == |t| + 1
    ensures UserWindow(h, t, |t|, |t|, name, u, hash) && Faithful(h, t, |t|, |t|, u.id, u.username)
    ensures name in h[|t|].users && h[|t|].users[name] == u ==> HashEarned(h, t, |t|, name, u, hash)
  {
  }

  /** The instance is connected, the administrator can get in, and the username can be a login. */
  ghost predicate Ready(w: World, u: UserObject) {
    && u.id in w.instances && w.instances[u.id] && InSync(w, u.id)
    && (u.username in ServerOf(w, u.id).passwords || u.username !in ServerOf(w, u.id).roles)
  }

  lemma ReadyMeans(w: World, u: UserObject)
    ensures Ready(w, u) ==>
              && u.id in w.instances && w.instances[u.id] && InSync(w, u.id) && u.id in w.servers
              && forall p :: Feasible(w, u.id, ListedLogin(w, u.id), SyncUser(u.username, p))
  {
  }

  /** The three stores agree on `password`, Vault's own if it is to be kept, and nothing else has changed. */
  ghost predicate Agreed(w: World, w': World, name: string, u: UserObject, password: string, hash: string -> string) {
    && u.id in w.servers
    && w' == Stabilised(w, name, u, password, hash(password))
    && (if KeepsStored(w, u) then Stored(w, u.id, u.username) == Password(password) else WellFormed(password, 32))
  }

  /** One reconcile of a User object; the result is the password it applied, empty if it did not get that far. */
  method ReconcileUser(r: Remote, cfg: Config, hash: string -> string, name: string) returns (password: string)
    requires r.Valid()
    requires name in r.world.users ==> Manageable(r.world, r.world.users[name].id, r.world.users[name].username)
    modifies r
    ensures r.Grew()
    ensures name !in old(r.world).users ==>
              forall i :: |old(r.trace)| <= i < |r.trace| ==> r.trace[i].Disturbed? || r.trace[i].UserFetch?
    ensures name in old(r.world).users ==>
              UserPromise(r.history, r.trace, |old(r.trace)|, name, old(r.world).users[name], hash, cfg)
    // Without faults the three stores agree at the end, from any start.
    ensures r.Calm(old(r.calls)) && cfg.vault && cfg.vaultRetries >= 1 && cfg.pgRetries >= 1
            && name in old(r.world).users && Ready(old(r.world), old(r.world).users[name]) ==>
              Agreed(old(r.world), r.world, name, old(r.world).users[name], password, hash)
  {
    hide Perform, Disturb, Replayed, Answer, Manageable, UserWindow, Undisturbed, Faithful, WellFormed, InSync,
         CanConnect, Stabilised, HashEarned, Ready, Agreed;
    password := "";
    ghost var n0 := |r.trace|;
    OnlySavingChangesUsers(r.world, Disturbed(r.OthersAt(r.calls)));
    PerformDisturbs(r.world, r.OthersAt(r.calls));
    var fetched := r.FetchUser(name);
    ghost var n1 := |r.trace|;
    if fetched.None? {
      if name in r.world.users {
        StartOfWindow(r.history, r.trace, name, r.world.users[name], hash);
        JoinPrep(r.history, r.trace, n0, n1, name, r.world.users[name], hash);
      }
      return;
    }
    ManageableStays(r.history[n0], r.world, fetched.value.id, fetched.value.username);
    password := ReconcileFetched(r, cfg, hash, name, fetched.value);
    JoinPrep(r.history, r.trace, n0, n1, name, fetched.value, hash);
  }

  // ------------------------------------------------------------------- theorems

  /**
   Self-stabilisation. Whatever earlier, faulty runs left behind, after one reconcile without faults Vault's and
   PostgreSQL's passwords are the same non-empty one, the saved hash is its hash, and every other secret, password,
   server and User object is what it was.
   */
  lemma StoresAgree(w: World, w': World, name: string, u: UserObject, password: string, hash: string -> string)
    requires name in w.users && w.users[name] == u && Agreed(w, w', name, u, password, hash)
    ensures password != "" && Stored(w', u.id, u.username) == Password(password)
    ensures u.id in w'.servers && u.username in w'.servers[u.id].passwords
            && w'.servers[u.id].passwords[u.username] == password
    ensures w'.users == w.users[name := u.(created := true, hash := hash(password))]
    ensures w' == w.(vault := w'.vault, servers := w'.servers, users := w'.users)
    ensures forall path :: path != UserPath(w.mount, u.id, u.username) ==>
              (path in w'.vault <==> path in w.vault) && (path in w.vault ==> w'.vault[path] == w.vault[path])
    ensures forall id :: id != u.id ==> ServerOf(w', id) == ServerOf(w, id)
    ensures forall v :: v != u.username ==> ActualPassword(w', u.id, v) == ActualPassword(w, u.id, v)
  {
    StoredIsNotEmpty(w, u.id, u.username);
  }

  /** A second reconcile without faults changes nothing, unless a new password is asked for each time. */
  lemma SecondTimeNothingChanges(w: World, w': World, w'': World, name: string, u: UserObject, password: string,
                                 again: string,
                                 hash: string -> string)
    requires name in w.users && w.users[name] == u && !u.updatePassword
    requires Agreed(w, w', name, u, password, hash) && Agreed(w', w'', name, w'.users[name], again, hash)
    ensures w'' == w' && again == password
  {
    hide Agreed, Stabilised;
    StoresAgree(w, w', name, u, password, hash);
    WrittenAgain(w', w'', name, w'.users[name], password, again, hash);
  }

  lemma WrittenAgain(w: World, w': World, name: string, u: UserObject, password: string, again: string,
                     hash: string -> string)
    requires name in w.users && w.users[name] == u && !u.updatePassword
    requires u.created && u.hash == hash(password) && Stored(w, u.id, u.username) == Password(password)
    requires u.id in w.servers && u.username in w.servers[u.id].passwords
             && w.servers[u.id].passwords[u.username] == password
    requires Agreed(w, w', name, u, again, hash)
    ensures w' == w && again == password
  {
    var s := w.servers[u.id];
    assert s.passwords[u.username := password] == s.passwords;
    assert s.(passwords := s.passwords[u.username := password], roles := s.roles) == s;
    assert w.servers[u.id := s] == w.servers;
    assert w.users[name := u] == w.users;
  }

  predicate SameUserSpec(u: UserObject, v: UserObject) {
    u.id == v.id && u.username == v.username && u.updatePassword == v.updatePassword
  }

  lemma {:induction false} SpecStays(h: seq<World>, t: seq<Act>, from: nat, upto: nat, name: string)
    requires Replayed(h, t) && from <= upto <= |t| && name in h[from].users
    ensures name in h[upto].users && SameUserSpec(h[from].users[name], h[upto].users[name])
    decreases upto
  {
    if from < upto {
      hide Perform, Replayed;
      SpecStays(h, t, from, upto - 1, name);
      ReplayedAt(h, t, upto - 1);
      var w, act := h[upto - 1], t[upto - 1];
      if act.SaveUser? {
        Saving(w, act.name, act.created, act.hash, act.outcome);
      } else {
        OnlySavingChangesUsers(w, act);
      }
    }
  }

  /** Every hash saved in a window is the one before it or one that PostgreSQL acknowledged within it. */
  ghost predicate HashesEarned(h: seq<World>, t: seq<Act>, from: nat, u: UserObject, hash: string -> string)
    requires |t| < |h|
  {
    forall i :: from <= i < |t| && t[i].SaveUser? ==>
      t[i].hash == u.hash || AcknowledgedIn(h, t, from, i, u.id, u.username, hash, t[i].hash)
  }

  /** What any number of reconciles of a user promises; u is the object at the start. */
  ghost predicate RunPromise(h: seq<World>, t: seq<Act>, from: nat, name: string, u: UserObject, hash: string -> string,
                             cfg: Config)
    requires from <= |t| && |h| == |t| + 1
  {
    && HashesEarned(h, t, from, u, hash) && HashEarned(h, t, from, name, u, hash)
    && (!u.updatePassword && Undisturbed(h, t, from, |t|, u.id, u.username) && cfg.vault && cfg.vaultRetries >= 1 ==>
          Faithful(h, t, from, |t|, u.id, u.username))
  }

  lemma RunStep(h1: seq<World>, t1: seq<Act>, h: seq<World>, t: seq<Act>, from: nat, name: string, u: UserObject,
                v: UserObject, hash: string -> string, cfg: Config)
    requires from <= |t1| && |h1| == |t1| + 1 && h1 <= h && t1 <= t && |h| == |t| + 1
    requires RunPromise(h1, t1, from, name, u, hash, cfg)
    requires name in h1[|t1|].users && h1[|t1|].users[name] == v && SameUserSpec(u, v)
    requires UserPromise(h, t, |t1|, name, v, hash, cfg)
    ensures RunPromise(h, t, from, name, u, hash, cfg)
  {
    hide UserAct, Acknowledged, Kept, Quiet, ReadWorks, Answer;
    var n := |t1|;
    assert v.hash == u.hash || AcknowledgedIn(h, t, from, n, u.id, u.username, hash, v.hash);
    forall i | from <= i < |t| && t[i].SaveUser?
      ensures t[i].hash == u.hash || AcknowledgedIn(h, t, from, i, u.id, u.username, hash, t[i].hash)
    {
      if i < n {
        assert t1[i].hash == u.hash || AcknowledgedIn(h1, t1, from, i, u.id, u.username, hash, t1[i].hash);
      } else {
        assert Earned(h, t, n, i, v, hash);
      }
    }
    if !u.updatePassword && Undisturbed(h, t, from, |t|, u.id, u.username) && cfg.vault && cfg.vaultRetries >= 1 {
      UndisturbedParts(h, t, from, n, |t|, u.id, u.username);
      WindowGrows(h1, t1, h, t, from, name, u, hash);
      FaithfulGrows(h1, t1, h, t, from, u.id, u.username);
      FaithfulParts(h, t, from, n, |t|, u.id, u.username);
    }
  }

  lemma FaithfulGrows(h1: seq<World>, t1: seq<Act>, h: seq<World>, t: seq<Act>, from: nat, id: string, username: string)
    requires from <= |t1| && |h1| == |t1| + 1 && h1 <= h && t1 <= t && |h| == |t| + 1
    ensures Faithful(h1, t1, from, |t1|, id, username) ==> Faithful(h, t, from, |t1|, id, username)
  {
    hide Kept, Answer;
  }

  /**
   Stored once, stored for good: from any moment of a faithful run at which a password is stored, it stays stored, every
   statement sends exactly it, and every statement that takes effect makes it PostgreSQL's.
   */
  lemma {:induction false} OnceStored(h: seq<World>, t: seq<Act>, from: nat, i: nat, j: nat, upto: nat, id: string,
                                      username: string)
    requires Replayed(h, t) && |h| == |t| + 1 && from <= i <= j <= upto <= |t|
    requires Faithful(h, t, from, upto, id, username) && Stored(h[i], id, username).Password?
    ensures Stored(h[j], id, username) == Stored(h[i], id, username)
    ensures j < upto && t[j].Sql? ==> SendsPassword(t[j].stmt, username, Stored(h[i], id, username).text)
    ensures j < upto && t[j].Sql? && TakesEffect(h[j], t[j]) ==>
              ActualPassword(h[j + 1], id, username) == Stored(h[i], id, username).text
    decreases j
  {
    hide Perform, Replayed, Answer, Accepted, CanConnect;
    if i < j {
      OnceStored(h, t, from, i, j - 1, upto, id, username);
      assert Kept(h[j - 1], h[j], id, username);
    }
    if j < upto && t[j].Sql? {
      assert SendsStored(h[j], t[j], id, username);
      ReplayedAt(h, t, j);
      if TakesEffect(h[j], t[j]) {
        SentIsSet(h[j], t[j], id, username, Stored(h[i], id, username).text);
      }
    }
  }

  predicate TakesEffect(w: World, act: Act) {
    act.Sql? && act.outcome != Outcome.Dropped && Accepted(w, act.id, act.conn, act.stmt)
  }

  lemma SentIsSet(w: World, act: Act, id: string, username: string, text: string)
    requires TakesEffect(w, act) && act.id == id && SendsPassword(act.stmt, username, text)
    ensures ActualPassword(Perform(w, act), id, username) == text
  {
    StatementsTakeEffect(w, act.id, act.conn, act.stmt, act.outcome);
  }

  /** Any number of reconciles, each under any faults. */
  method ReconcileUserRepeatedly(r: Remote, cfg: Config, hash: string -> string, name: string, rounds: nat)
    requires r.Valid() && name in r.world.users
    requires Manageable(r.world, r.world.users[name].id, r.world.users[name].username)
    modifies r
    ensures r.Grew()
    ensures RunPromise(r.history, r.trace, |old(r.trace)|, name, old(r.world).users[name], hash, cfg)
  {
    hide Perform, Disturb, Replayed, Answer, Manageable, UserPromise, RunPromise, Ready, Agreed;
    ghost var n0, u := |r.trace|, r.world.users[name];
    RunStarts(r.history, r.trace, name, u, hash, cfg);
    for k := 0 to rounds
      invariant r.Grew() && name in r.world.users && SameUserSpec(u, r.world.users[name])
      invariant RunPromise(r.history, r.trace, n0, name, u, hash, cfg)
    {
      ghost var h1, t1 := r.history, r.trace;
      ManageableStays(h1[n0], r.world, u.id, u.username);
      var password := ReconcileUser(r, cfg, hash, name);
      SpecStays(r.history, r.trace, |t1|, |r.trace|, name);
      RunStep(h1, t1, r.history, r.trace, n0, name, u, h1[|t1|].users[name], hash, cfg);
    }
  }

  lemma RunStarts(h: seq<World>, t: seq<Act>, name: string, u: UserObject, hash: string -> string, cfg: Config)
    requires |h| == |t| + 1 && name in h[|t|].users && h[|t|].users[name] == u
    ensures RunPromise(h, t, |t|, name, u, hash, cfg)
  {
  }
}
