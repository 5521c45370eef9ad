/**
 The admin credential protocol: register the default credentials, and rotate the password when new_password is
 requested (ALTER in PostgreSQL first, commit in Vault second), with no log and no transaction.

 The safety property is about every act of every reconcile (`Allowed`), so it holds for a crash between any two acts.
 */
module AdminCredentials {
  import opened Basics
  import opened Cluster
  import opened VaultStore
  import opened PostgresOps
  import opened AdminSteps

  // --------------------------------------------------------- runs of the program alone

  /** A run of the program, alone with the acts of others, keeps the live credential at every act. */
  lemma {:induction false} FollowsIsSafe(h: seq<World>, t: seq<Act>, from: nat, upto: nat, id: string, m: Memory,
                                         m': Memory)
    requires Replayed(h, t) && |h| == |t| + 1 && from <= upto <= |t| && NoSlash(id)
    requires Safe(h[from], id) && Knows(h[from], id, m) && Follows(h, t, from, upto, id, m, m')
    ensures Safe(h[upto], id) && Knows(h[upto], id, m')
    ensures forall i :: from <= i < upto ==> Allowed(h[i], t[i], id)
    decreases upto
  {
    hide Perform, Replayed, Safe, Knows, Allowed, Step;
    if from < upto {
      var mid :| Follows(h, t, from, upto - 1, id, m, mid) && Step(mid, h[upto - 1], t[upto - 1], id, m');
      FollowsIsSafe(h, t, from, upto - 1, id, m, mid);
      ReplayedAt(h, t, upto - 1);
      StepIsSafe(h[upto - 1], t[upto - 1], id, mid, m');
    }
  }

  lemma StepIsSafe(w: World, act: Act, id: string, m: Memory, m': Memory)
    requires NoSlash(id) && Safe(w, id) && Knows(w, id, m) && Step(m, w, act, id, m')
    ensures Allowed(w, act, id) && Safe(Perform(w, act), id) && Knows(Perform(w, act), id, m')
  {
    if act.Disturbed? {
      LookChangesNothing(w, act, id);
      hide Perform, Knows, Unchanged;
      NothingIsKnown(Perform(w, act), id);
      KnowledgeStays(w, Perform(w, act), id, m);
    } else {
      hide Perform, Knows, Step;
      ProgramIsSound(w, act, id, m, m');
    }
    hide *;
    AllowedKeepsSafe(w, act, id, id);
  }

  lemma NothingIsKnown(w: World, id: string)
    ensures Knows(w, id, Nothing)
  {
  }

  /** A read leaves the world as it found it. */
  lemma LastReadAnswers(h: seq<World>, t: seq<Act>)
    requires Replayed(h, t) && |h| == |t| + 1 && t != [] && IsRead(t[|t| - 1])
    ensures h[|t|] == h[|t| - 1]
  {
    hide Perform;
    ReplayedAt(h, t, |t| - 1);
    ReadsChangeNothing(h[|t| - 1], t[|t| - 1]);
  }

  // ------------------------------------------------------------ windows are program runs

  /** Reading the admin secret, to learn m' from the last answer. */
  lemma ReadFollows(h: seq<World>, t: seq<Act>, from: nat, id: string, m: Memory, m': Memory)
    requires Replayed(h, t) && |h| == |t| + 1 && from < |t|
    requires forall i :: from <= i < |t| ==> ReadAct(t[i], AdminPath(h[|t|].mount, id))
    requires t[|t| - 1].VaultGet? && t[|t| - 1].outcome == Acked && (m' == m || Learns(m, h[|t|], id, m'))
    ensures Follows(h, t, from, |t|, id, m, m')
  {
    hide Perform, Replayed, Learns, Answer, Follows;
    LastReadAnswers(h, t);
    FollowsLooks(h, t, from, |t|, id, m, m');
  }

  lemma ReadDefaultFollows(h: seq<World>, t: seq<Act>, from: nat, id: string, creds: Login)
    requires Replayed(h, t) && |h| == |t| + 1 && from < |t|
    requires forall i :: from <= i < |t| ==> ReadAct(t[i], DefaultPath(h[|t|].mount))
    requires t[|t| - 1].VaultGet? && t[|t| - 1].outcome == Acked
    requires Answer(h[|t|], ReadDefault) == Credentials(creds.name, creds.password)
    ensures Follows(h, t, from, |t|, id, Absent, Default(creds))
  {
    hide Perform, Replayed, Learns, Answer, Follows;
    LastReadAnswers(h, t);
    FollowsLooks(h, t, from, |t|, id, Absent, Default(creds));
  }

  /** A connection test, with the memory it leaves when it succeeds. */
  lemma TestFollows(h: seq<World>, t: seq<Act>, from: nat, id: string, m: Memory, connected: bool, creds: Login)
    requires Replayed(h, t) && |h| == |t| + 1 && from <= |t|
    requires forall i :: from <= i < |t| ==> t[i].Disturbed? || t[i].Catalog?
    requires connected ==>
               from < |t| && t[|t| - 1] == Catalog(id, On(creds, DEFAULT_DB), Acked)
               && CanConnect(ServerOf(h[|t|], id), On(creds, DEFAULT_DB))
    ensures connected && m == Default(creds) ==> Follows(h, t, from, |t|, id, m, Storing(creds))
    ensures connected && m == Own(creds) ==> Follows(h, t, from, |t|, id, m, Working)
    ensures Follows(h, t, from, |t|, id, m, m)
  {
    hide Perform, Replayed, CanConnect, Follows;
    FollowsLooks(h, t, from, |t|, id, m, m);
    if connected {
      LastReadAnswers(h, t);
      if m == Default(creds) {
        FollowsLooks(h, t, from, |t|, id, m, Storing(creds));
      } else if m == Own(creds) {
        FollowsLooks(h, t, from, |t|, id, m, Working);
      }
    }
  }

  lemma StoreFollows(h: seq<World>, t: seq<Act>, from: nat, upto: nat, id: string, creds: Login)
    requires from <= upto <= |t| < |h|
    requires forall i :: from <= i < upto ==> WriteAct(h[i], t[i], StoreAdmin(id, creds.name, creds.password))
    ensures Follows(h, t, from, upto, id, Storing(creds), Storing(creds))
  {
    hide Follows, Learns;
    FollowsStay(h, t, from, upto, id, Storing(creds));
  }

  lemma AlterIsStep(w: World, act: Act, id: string, creds: Login, newPassword: string)
    requires OpAct(w, act, id, creds, SyncUser(creds.name, newPassword))
    ensures Step(Rotating(creds, newPassword), w, act, id, Rotating(creds, newPassword))
    ensures UserAcknowledged(w, act, id, creds.name, newPassword) ==>
              Step(Rotating(creds, newPassword), w, act, id, Altered(newPassword))
  {
    hide Accepted;
  }

  lemma AlterFollows(h: seq<World>, t: seq<Act>, from: nat, id: string, creds: Login, newPassword: string, ok: bool)
    requires from <= |t| < |h|
    requires forall i :: from <= i < |t| ==> OpAct(h[i], t[i], id, creds, SyncUser(creds.name, newPassword))
    requires ok ==> from < |t| && UserAcknowledged(h[|t| - 1], t[|t| - 1], id, creds.name, newPassword)
    ensures Follows(h, t, from, |t|, id, Rotating(creds, newPassword),
                    if ok then Altered(newPassword) else Rotating(creds, newPassword))
  {
    hide Step, OpAct, UserAcknowledged;
    var m := Rotating(creds, newPassword);
    forall i | from <= i < |t|
      ensures Step(m, h[i], t[i], id, m)
    {
      AlterIsStep(h[i], t[i], id, creds, newPassword);
    }
    if ok {
      AlterIsStep(h[|t| - 1], t[|t| - 1], id, creds, newPassword);
      FollowsStay(h, t, from, |t| - 1, id, m);
      assert Step(m, h[|t| - 1], t[|t| - 1], id, Altered(newPassword));
    } else {
      FollowsStay(h, t, from, |t|, id, m);
    }
  }

  /** What the program remembers of the login while it commits: the last one it has read. */
  ghost function Held(h: seq<World>, t: seq<Act>, from: nat, i: nat, id: string, newPassword: string): Memory
    requires from <= i <= |t| < |h|
  {
    if i == from then Altered(newPassword)
    else if t[i - 1].VaultGet? && t[i - 1].outcome == Acked && Listed(h[i - 1], id, "login") != ""
      then Recommitting(Listed(h[i - 1], id, "login"), newPassword)
    else Held(h, t, from, i - 1, id, newPassword)
  }

  lemma CommitIsStep(h: seq<World>, t: seq<Act>, from: nat, i: nat, id: string, newPassword: string)
    requires Replayed(h, t) && |h| == |t| + 1 && from <= i < |t|
    requires WriteAct(h[i], t[i], RotateAdmin(id, newPassword))
    requires CarriesLogin(h, t, from, i, RotateAdmin(id, newPassword))
    ensures Step(Held(h, t, from, i, id, newPassword), h[i], t[i], id, Held(h, t, from, i + 1, id, newPassword))
  {
    hide Perform, Replayed;
    var m := Held(h, t, from, i, id, newPassword);
    HeldIsCommitting(h, t, from, i, id, newPassword);
    if t[i].VaultPut? {
      FrameStays(h, t, i - 2, i);
      assert m == Held(h, t, from, i - 1, id, newPassword);
      assert m == Recommitting(Listed(h[i - 2], id, "login"), newPassword);
    }
  }

  lemma {:induction false} HeldIsCommitting(h: seq<World>, t: seq<Act>, from: nat, i: nat, id: string,
                                            newPassword: string)
    requires from <= i <= |t| < |h|
    ensures var m := Held(h, t, from, i, id, newPassword);
            (m.Altered? || m.Recommitting?) && m.newPassword == newPassword
    decreases i
  {
    if from < i {
      HeldIsCommitting(h, t, from, i - 1, id, newPassword);
    }
  }

  lemma {:induction false} CommitFollows(h: seq<World>, t: seq<Act>, from: nat, upto: nat, id: string,
                                         newPassword: string)
    requires Replayed(h, t) && |h| == |t| + 1 && from <= upto <= |t|
    requires forall i :: from <= i < upto ==>
               WriteAct(h[i], t[i], RotateAdmin(id, newPassword))
               && CarriesLogin(h, t, from, i, RotateAdmin(id, newPassword))
    ensures Follows(h, t, from, upto, id, Altered(newPassword), Held(h, t, from, upto, id, newPassword))
    decreases upto
  {
    hide Perform, Replayed, WriteAct, CarriesLogin, Step;
    if from < upto {
      CommitFollows(h, t, from, upto - 1, id, newPassword);
      CommitIsStep(h, t, from, upto - 1, id, newPassword);
    }
  }

  // ---------------------------------------------------------------- the reconcile

  /** The credentials a working reconcile tries, and whether they are the default ones. */
  function Resolved(w: World, id: string): (Login, bool) {
    match Answer(w, ReadAdmin(id))
    case Credentials(login, password) => (Login(login, password), false)
    case NotFound =>
      (match Answer(w, ReadDefault)
       case Credentials(login, password) => (Login(login, password), true)
       case _ => (Login("", ""), false))
    case _ => (Login("", ""), false)
  }

  /** What has been read belongs to state w. */
  ghost predicate Tried(w: World, id: string, creds: Login, usedDefault: bool) {
    if usedDefault then !Present(w, id) && Answer(w, ReadDefault) == Credentials(creds.name, creds.password)
    else creds == Login("", "") || (Present(w, id) && creds == ListedLogin(w, id))
  }

  /** instance_admin first; the default credentials only if Vault says that there is no such secret. */
  method ResolveInstanceCredentials(r: Remote, cfg: Config, id: string)
    returns (creds: Login, usedDefault: bool, ghost memory: Memory)
    requires r.Valid() && NoSlash(id)
    modifies r
    ensures r.Grew()
    ensures forall i :: |old(r.trace)| <= i < |r.trace| ==> Looks(r.trace[i])
    ensures Follows(r.history, r.trace, |old(r.trace)|, |r.trace|, id, Nothing, memory)
    ensures creds != Login("", "") ==> memory == if usedDefault then Default(creds) else Own(creds)
    ensures Unchanged(old(r.world), r.world, id) && Tried(r.world, id, creds, usedDefault)
    ensures r.Calm(old(r.calls)) ==> r.world == old(r.world)
    ensures r.Calm(old(r.calls)) && cfg.vaultRetries >= 1 ==> (creds, usedDefault) == Resolved(r.world, id)
  {
    hide Perform, Disturb, Replayed, Unchanged, Refused, Follows;
    ghost var n := |r.trace|;
    creds, usedDefault, memory := Login("", ""), false, Nothing;
    var reply := ReadWithRetry(r, ReadAdmin(id), cfg.vaultRetries, cfg.vaultBase);
    LooksChangeNothing(r.history, r.trace, n, |r.trace|, id);
    match reply
    case Credentials(login, password) =>
      creds := Login(login, password);
      memory := Own(creds);
      ReadFollows(r.history, r.trace, n, id, Nothing, memory);
    case NotFound =>
      memory := Absent;
      ReadFollows(r.history, r.trace, n, id, Nothing, memory);
      creds, usedDefault, memory := ResolveDefaultCredentials(r, cfg, id, n);
      LooksChangeNothing(r.history, r.trace, n, |r.trace|, id);
    case _ =>
      FollowsLooks(r.history, r.trace, n, |r.trace|, id, Nothing, Nothing);
  }

  /** The second read, once Vault has said that there is no secret for the instance. */
  method ResolveDefaultCredentials(r: Remote, cfg: Config, id: string, ghost from: nat)
    returns (creds: Login, usedDefault: bool, ghost memory: Memory)
    requires r.Valid() && NoSlash(id) && !Present(r.world, id) && from <= |r.trace|
    requires Follows(r.history, r.trace, from, |r.trace|, id, Nothing, Absent)
    modifies r
    ensures r.Grew()
    ensures forall i :: |old(r.trace)| <= i < |r.trace| ==> Looks(r.trace[i])
    ensures Follows(r.history, r.trace, from, |r.trace|, id, Nothing, memory)
    ensures creds != Login("", "") ==> usedDefault && memory == Default(creds)
    ensures Unchanged(old(r.world), r.world, id) && Tried(r.world, id, creds, usedDefault)
    ensures r.Calm(old(r.calls)) ==> r.world == old(r.world)
    ensures r.Calm(old(r.calls)) && cfg.vaultRetries >= 1 ==>
              var d := Answer(r.world, ReadDefault);
              (creds, usedDefault)
              == if d.Credentials? then (Login(d.login, d.password), true) else (Login("", ""), false)
  {
    hide Perform, Disturb, Replayed, Unchanged, Refused, Follows, Answer;
    ghost var h1, t1, w := r.history, r.trace, r.world;
    creds, usedDefault, memory := Login("", ""), false, Absent;
    var reply := ReadWithRetry(r, ReadDefault, cfg.vaultRetries, cfg.vaultBase);
    LooksChangeNothing(r.history, r.trace, |t1|, |r.trace|, id);
    StillAbsent(w, r.world, id);
    FollowsGrows(h1, t1, r.history, r.trace, from, |t1|, id, Nothing, Absent);
    if reply.Credentials? {
      creds, usedDefault := Login(reply.login, reply.password), true;
      memory := Default(creds);
      ReadDefaultFollows(r.history, r.trace, |t1|, id, creds);
    } else {
      FollowsLooks(r.history, r.trace, |t1|, |r.trace|, id, Absent, Absent);
    }
    FollowsJoin(r.history, r.trace, from, |t1|, |r.trace|, id, Nothing, Absent, memory);
  }

  lemma StillAbsent(w: World, w': World, id: string)
    requires Unchanged(w, w', id) && !Present(w, id)
    ensures !Present(w', id)
  {
  }

  method StoreInstanceAdminCredentials(r: Remote, cfg: Config, id: string, creds: Login)
    requires r.Valid() && NoSlash(id) && Safe(r.world, id) && Registering(r.world, id, creds.name, creds.password)
    modifies r
    ensures r.Grew()
    ensures Follows(r.history, r.trace, |old(r.trace)|, |r.trace|, id, Storing(creds), Storing(creds))
    ensures Registering(r.world, id, creds.name, creds.password)
    ensures r.Calm(old(r.calls)) && cfg.vaultRetries >= 1 ==>
              r.world == Written(old(r.world), StoreAdmin(id, creds.name, creds.password))
  {
    hide Perform, Disturb, Replayed, Safe, Registering, WriteAct, Follows;
    ghost var n := |r.trace|;
    var ok := WriteWithRetry(r, StoreAdmin(id, creds.name, creds.password), cfg.vaultRetries, cfg.vaultBase);
    StoreFollows(r.history, r.trace, n, |r.trace|, id, creds);
    FollowsIsSafe(r.history, r.trace, n, |r.trace|, id, Storing(creds), Storing(creds));
  }

  // ------------------------------------------------------------------- rotation

  /** ALTER in PostgreSQL, then commit in Vault. */
  method ChangeAdminPassword(r: Remote, cfg: Config, id: string, creds: Login, newPassword: string)
    returns (ghost memory: Memory)
    requires r.Valid() && NoSlash(id) && Safe(r.world, id)
             && Altering(r.world, id, creds.name, creds.password, newPassword)
    modifies r
    ensures r.Grew()
    ensures Follows(r.history, r.trace, |old(r.trace)|, |r.trace|, id, Rotating(creds, newPassword), memory)
    ensures r.Calm(old(r.calls)) && cfg.vaultRetries >= 1 && cfg.pgRetries >= 1 && InSync(old(r.world), id) ==>
              r.world == Rotated(old(r.world), id)
  {
    hide Perform, Disturb, Replayed, Safe, Altering, WriteAct, CarriesLogin, OpAct, Rotated, InSync, Follows,
         UserAcknowledged, Held;
    ghost var n := |r.trace|;
    RotationIsFeasible(r.world, id, creds.name, creds.password, newPassword);
    var ok := ExecuteOperationWithRetry(r, id, creds, SyncUser(creds.name, newPassword), cfg.pgRetries, cfg.pgBase);
    memory := if ok then Altered(newPassword) else Rotating(creds, newPassword);
    AlterFollows(r.history, r.trace, n, id, creds, newPassword, ok);
    if ok {
      ghost var h1, t1 := r.history, r.trace;
      ok := WriteWithRetry(r, RotateAdmin(id, newPassword), cfg.vaultRetries, cfg.vaultBase);
      memory := Held(r.history, r.trace, |t1|, |r.trace|, id, newPassword);
      CommitFollows(r.history, r.trace, |t1|, |r.trace|, id, newPassword);
      FollowsGrows(h1, t1, r.history, r.trace, n, |t1|, id, Rotating(creds, newPassword), Altered(newPassword));
      FollowsJoin(r.history, r.trace, n, |t1|, |r.trace|, id, Rotating(creds, newPassword), Altered(newPassword),
                  memory);
    }
  }

  /** The world after a completed rotation; the same world if none is requested. */
  function Rotated(w: World, id: string): World
    requires id in w.servers
  {
    var login, newPassword := Listed(w, id, "login"), Listed(w, id, "new_password");
    if newPassword == "" then w
    else
      var s := w.servers[id];
      w.(vault := w.vault[AdminPath(w.mount, id) := map["login" := login, "password" := newPassword]],
         servers := w.servers[id := s.(passwords := s.passwords[login := newPassword])])
  }

  lemma RotationIsFeasible(w: World, id: string, login: string, password: string, newPassword: string)
    requires Altering(w, id, login, password, newPassword)
    ensures InSync(w, id) ==>
              && Feasible(w, id, Login(login, password), SyncUser(login, newPassword))
              && Writable(WithUser(w, id, login, newPassword), RotateAdmin(id, newPassword))
              && Written(WithUser(w, id, login, newPassword), RotateAdmin(id, newPassword)) == Rotated(w, id)
  {
  }

  /** A pending request with the credentials to fulfil it; None if there is none or one of the two reads failed. */
  method ReadRotationRequest(r: Remote, cfg: Config, id: string)
    returns (request: Option<(Login, string)>, ghost memory: Memory)
    requires r.Valid() && NoSlash(id) && Safe(r.world, id)
    modifies r
    ensures r.Grew() && Safe(r.world, id)
    ensures Follows(r.history, r.trace, |old(r.trace)|, |r.trace|, id, Working, memory)
    ensures request.Some? ==>
              && Altering(r.world, id, request.value.0.name, request.value.0.password, request.value.1)
              && memory == Rotating(request.value.0, request.value.1)
    ensures r.Calm(old(r.calls)) && cfg.vaultRetries >= 1 && InSync(old(r.world), id) ==>
              && r.world == old(r.world)
              && (request.None? <==> Listed(r.world, id, "new_password") == "")
  {
    hide Perform, Disturb, Replayed, Allowed, Altering, Safe, InSync, Refused, Answer, Follows;
    ghost var n := |r.trace|;
    InSyncAnswers(r.world, id);
    request, memory := None, Working;
    var reply := ReadWithRetry(r, ReadNewPassword(id), cfg.vaultRetries, cfg.vaultBase);
    FollowsLooks(r.history, r.trace, n, |r.trace|, id, Working, Working);
    FollowsIsSafe(r.history, r.trace, n, |r.trace|, id, Working, Working);
    if !reply.Password? || reply.text == "" {
      return;
    }
    memory := Requested(reply.text);
    ReadFollows(r.history, r.trace, n, id, Working, memory);
    request, memory := ReadCredentialsAgain(r, cfg, id, reply.text, n);
  }

  /** The second read of a rotation; what it finds belongs to the request that was read before. */
  method ReadCredentialsAgain(r: Remote, cfg: Config, id: string, newPassword: string, ghost from: nat)
    returns (request: Option<(Login, string)>, ghost memory: Memory)
    requires r.Valid() && NoSlash(id) && from <= |r.trace| && Safe(r.history[from], id)
    requires Follows(r.history, r.trace, from, |r.trace|, id, Working, Requested(newPassword))
    modifies r
    ensures r.Grew() && Safe(r.world, id)
    ensures Follows(r.history, r.trace, from, |r.trace|, id, Working, memory)
    ensures request.Some? ==>
              && request.value.1 == newPassword && memory == Rotating(request.value.0, newPassword)
              && Altering(r.world, id, request.value.0.name, request.value.0.password, newPassword)
    ensures r.Calm(old(r.calls)) ==> r.world == old(r.world)
    ensures r.Calm(old(r.calls)) && cfg.vaultRetries >= 1 && Answer(r.world, ReadAdmin(id)).Credentials? ==>
              request.Some?
  {
    hide Perform, Disturb, Replayed, Allowed, Altering, Safe, Refused, Answer, Follows;
    ghost var h1, t1 := r.history, r.trace;
    request, memory := None, Requested(newPassword);
    var reply := ReadWithRetry(r, ReadAdmin(id), cfg.vaultRetries, cfg.vaultBase);
    FollowsGrows(h1, t1, r.history, r.trace, from, |t1|, id, Working, Requested(newPassword));
    if reply.Credentials? {
      var creds := Login(reply.login, reply.password);
      request, memory := Some((creds, newPassword)), Rotating(creds, newPassword);
      ReadFollows(r.history, r.trace, |t1|, id, Requested(newPassword), memory);
    } else {
      FollowsLooks(r.history, r.trace, |t1|, |r.trace|, id, memory, memory);
    }
    FollowsJoin(r.history, r.trace, from, |t1|, |r.trace|, id, Working, Requested(newPassword), memory);
    FollowsIsSafe(r.history, r.trace, from, |r.trace|, id, Working, memory);
  }

  method HandleInstanceAdminPasswordRotation(r: Remote, cfg: Config, id: string) returns (ghost memory: Memory)
    requires r.Valid() && NoSlash(id) && Safe(r.world, id)
    modifies r
    ensures r.Grew()
    ensures Follows(r.history, r.trace, |old(r.trace)|, |r.trace|, id, Working, memory)
    ensures forall i :: |old(r.trace)| <= i < |r.trace| ==> Allowed(r.history[i], r.trace[i], id)
    ensures r.Calm(old(r.calls)) && cfg.vaultRetries >= 1 && cfg.pgRetries >= 1 && InSync(old(r.world), id) ==>
              r.world == Rotated(old(r.world), id)
  {
    hide Perform, Disturb, Replayed, Allowed, Altering, Safe, InSync, Rotated, Follows;
    ghost var n := |r.trace|;
    InSyncAnswers(r.world, id);
    var request;
    request, memory := ReadRotationRequest(r, cfg, id);
    ghost var h1, t1 := r.history, r.trace;
    match request {
      case None =>
      case Some((admin, newPassword)) =>
        ghost var before := memory;
        memory := ChangeAdminPassword(r, cfg, id, admin, newPassword);
        FollowsGrows(h1, t1, r.history, r.trace, n, |t1|, id, Working, before);
        FollowsJoin(r.history, r.trace, n, |t1|, |r.trace|, id, Working, before, memory);
    }
    FollowsIsSafe(r.history, r.trace, n, |r.trace|, id, Working, memory);
  }

  lemma InSyncAnswers(w: World, id: string)
    ensures InSync(w, id) ==>
              && id in w.servers
              && Answer(w, ReadAdmin(id)) == Credentials(Listed(w, id, "login"), Listed(w, id, "password"))
              && Answer(w, ReadNewPassword(id)) == Password(Listed(w, id, "new_password"))
              && (Listed(w, id, "new_password") == "" ==> Rotated(w, id) == w)
  {
  }

  // --------------------------------------------------------------------- status

  datatype Condition = Condition(status: bool, message: string)

  function ConnectionCondition(connected: bool, connErr: string, id: string, address: string): Condition {
    if connected then Condition(true, "Successfully connected to PostgreSQL at " + address)
    else Condition(false, "Failed to connect to PostgreSQL with id " + id + " at " + address
                          + (if connErr != "" then ": " + connErr else ""))
  }

  /** The operator's copy of a Postgresql object: its ID and status. */
  class InstanceStatus {
    const id: string
    var address: string
    var connected: bool
    var ready: Option<Condition>

    constructor (id: string, address: string, connected: bool, ready: Option<Condition>)
      ensures this.id == id && this.address == address && this.connected == connected && this.ready == ready
    {
      this.id, this.address, this.connected, this.ready := id, address, connected, ready;
    }

    /** True exactly if the status differs from what it was. */
    method UpdateConnectionStatus(newAddress: string, nowConnected: bool, connErr: string) returns (changed: bool)
      modifies this
      ensures address == newAddress && connected == nowConnected
      ensures ready == Some(ConnectionCondition(nowConnected, connErr, id, newAddress))
      ensures changed <==> (address, connected, ready) != old((address, connected, ready))
    {
      changed := false;
      if address != newAddress {
        address := newAddress;
        changed := true;
      }
      if connected != nowConnected {
        connected := nowConnected;
        changed := true;
      }
      var condition := ConnectionCondition(nowConnected, connErr, id, newAddress);
      if ready.None? || ready.value.status != condition.status || ready.value.message != condition.message {
        ready := Some(condition);
        changed := true;
      }
    }
  }

  // ------------------------------------------------------------------ reconcile

  /** What a reconcile without faults makes of Vault and PostgreSQL. */
  function Reconciled(w: World, id: string): World {
    var (creds, usedDefault) := Resolved(w, id);
    if !CanConnect(ServerOf(w, id), On(creds, DEFAULT_DB)) then w
    else if usedDefault
         then w.(vault := w.vault[AdminPath(w.mount, id) := map["login" := creds.name, "password" := creds.password]])
    else Rotated(w, id)
  }

  /** Only the connected flags of Postgresql objects may differ. */
  predicate SameStores(w: World, w': World) {
    w' == w.(instances := w'.instances)
  }

  /** Writes to Vault or statements to a server. */
  predicate Touches(act: Act) {
    act.VaultPut? || act.Sql?
  }

  /** The protocol itself, up to the status update. */
  method RunProtocol(r: Remote, cfg: Config, id: string) returns (connected: bool, ghost memory: Memory)
    requires r.Valid() && NoSlash(id) && Safe(r.world, id)
    modifies r
    ensures r.Grew()
    ensures Follows(r.history, r.trace, |old(r.trace)|, |r.trace|, id, Nothing, memory)
    ensures !cfg.vault || (Present(old(r.world), id) && !InSync(old(r.world), id)) ==>
              !connected && forall i :: |old(r.trace)| <= i < |r.trace| ==> Looks(r.trace[i])
    ensures r.Calm(old(r.calls)) && cfg.vault && cfg.vaultRetries >= 1 && cfg.pgRetries >= 1 ==>
              && r.world == Reconciled(old(r.world), id)
              && connected == CanConnect(ServerOf(old(r.world), id), On(Resolved(old(r.world), id).0, DEFAULT_DB))
  {
    hide Perform, Disturb, Replayed, Allowed, Registering, Safe, Unchanged, Rotated, Follows;
    ghost var n, w0 := |r.trace|, r.world;
    var creds, usedDefault := Login("", ""), false;
    memory := Nothing;
    FollowsLooks(r.history, r.trace, n, n, id, Nothing, Nothing);
    LooksChangeNothing(r.history, r.trace, n, n, id);
    if cfg.vault {
      creds, usedDefault, memory := ResolveInstanceCredentials(r, cfg, id);
    }
    connected, memory := ProbeCredentials(r, cfg, id, n, creds, usedDefault, memory);
    if connected && cfg.vault {
      ghost var h1, t1, before := r.history, r.trace, memory;
      if usedDefault {
        StoreInstanceAdminCredentials(r, cfg, id, creds);
      } else {
        memory := HandleInstanceAdminPasswordRotation(r, cfg, id);
      }
      FollowsGrows(h1, t1, r.history, r.trace, n, |t1|, id, Nothing, before);
      FollowsJoin(r.history, r.trace, n, |t1|, |r.trace|, id, Nothing, before, memory);
    }
  }

  /** The connection test with the credentials that were read. */
  method ProbeCredentials(r: Remote, cfg: Config, id: string, ghost from: nat, creds: Login, usedDefault: bool,
                          ghost before: Memory)
    returns (connected: bool, ghost memory: Memory)
    requires r.Valid() && NoSlash(id) && from <= |r.trace| && Safe(r.history[from], id)
    requires Follows(r.history, r.trace, from, |r.trace|, id, Nothing, before)
    requires Unchanged(r.history[from], r.world, id) && Tried(r.world, id, creds, usedDefault)
    requires creds != Login("", "") ==> before == if usedDefault then Default(creds) else Own(creds)
    requires forall i :: from <= i < |r.trace| ==> Looks(r.trace[i])
    modifies r
    ensures r.Grew()
    ensures Follows(r.history, r.trace, from, |r.trace|, id, Nothing, memory)
    ensures forall i :: |old(r.trace)| <= i < |r.trace| ==> Looks(r.trace[i])
    ensures Safe(r.world, id) && (connected ==> creds != Login("", ""))
    ensures connected && usedDefault ==>
              memory == Storing(creds) && Registering(r.world, id, creds.name, creds.password)
              && !Present(r.history[from], id)
    ensures connected && !usedDefault ==> memory == Working && InSync(r.world, id) && InSync(r.history[from], id)
    ensures r.Calm(old(r.calls)) ==> r.world == old(r.world)
    ensures r.Calm(old(r.calls)) && cfg.pgRetries >= 1 ==>
              connected == CanConnect(ServerOf(r.world, id), On(creds, DEFAULT_DB))
  {
    hide Perform, Disturb, Replayed, Allowed, Registering, Safe, Follows;
    ghost var h1, t1, w1 := r.history, r.trace, r.world;
    connected := TestConnection(r, id, creds, cfg.pgRetries, cfg.pgBase);
    memory := if !connected then before else if usedDefault then Storing(creds) else Working;
    TestFollows(r.history, r.trace, |t1|, id, before, connected, creds);
    FollowsGrows(h1, t1, r.history, r.trace, from, |t1|, id, Nothing, before);
    FollowsJoin(r.history, r.trace, from, |t1|, |r.trace|, id, Nothing, before, memory);
    NothingIsKnown(r.history[from], id);
    FollowsIsSafe(r.history, r.trace, from, |r.trace|, id, Nothing, memory);
    LooksChangeNothing(r.history, r.trace, |t1|, |r.trace|, id);
    if connected {
      LooksKeepCatalogs(r.history, r.trace, from, |r.trace|, id);
      ConnectedMeans(r.history[from], w1, r.world, id, creds, usedDefault);
    }
  }

  /** What a working connection tells about the credentials that were read earlier. */
  lemma ConnectedMeans(w0: World, w1: World, w: World, id: string, creds: Login, usedDefault: bool)
    requires Safe(w, id) && Unchanged(w0, w1, id) && Unchanged(w1, w, id) && Tried(w1, id, creds, usedDefault)
    requires SameCatalogs(ServerOf(w0, id), ServerOf(w, id))
    requires id in w.servers && CanConnect(w.servers[id], On(creds, DEFAULT_DB))
    ensures usedDefault ==> Registering(w, id, creds.name, creds.password) && !Present(w0, id)
    ensures !usedDefault ==> InSync(w, id) && InSync(w0, id)
  {
  }

  /** One reconcile; `connErr` is the text of the connection error. */
  method ReconcileExternalInstance(r: Remote, cfg: Config, st: InstanceStatus, address: string, connErr: string)
    requires r.Valid() && NoSlash(st.id) && Safe(r.world, st.id)
    modifies r, st
    ensures r.Grew()
    // Under any faults, the acts are a run of the program, and every act is one that keeps the live credential.
    ensures Runs(r.history, r.trace, |old(r.trace)|, |r.trace|, st.id)
    ensures forall i :: |old(r.trace)| <= i < |r.trace| ==> Allowed(r.history[i], r.trace[i], st.id)
    ensures Safe(r.world, st.id)
    // Out of sync, or without Vault, nothing is written, whatever happens.
    ensures !cfg.vault || (Present(old(r.world), st.id) && !InSync(old(r.world), st.id)) ==>
              !st.connected && forall i :: |old(r.trace)| <= i < |r.trace| ==> !Touches(r.trace[i])
    ensures Present(old(r.world), st.id) && !InSync(old(r.world), st.id) ==>
              Present(r.world, st.id) && !InSync(r.world, st.id)
    ensures r.Calm(old(r.calls)) && cfg.vault && cfg.vaultRetries >= 1 && cfg.pgRetries >= 1 ==>
              && SameStores(Reconciled(old(r.world), st.id), r.world)
              && st.connected
                 == CanConnect(ServerOf(old(r.world), st.id), On(Resolved(old(r.world), st.id).0, DEFAULT_DB))
              && (st.id in r.world.instances && old(st.connected) != st.connected ==>
                  r.world.instances[st.id] == st.connected)
  {
    hide Perform, Disturb, Replayed, Allowed, Safe, Reconciled, InSync, CanConnect, Resolved, Follows, Step, Runs,
         Unchanged, Knows, ConnectionCondition;
    ghost var n, memory := |r.trace|, Nothing;
    var connected;
    connected, memory := RunProtocol(r, cfg, st.id);
    ghost var h1, t1 := r.history, r.trace;
    var changed := st.UpdateConnectionStatus(address, connected, connErr);
    if changed {
      SavingKeepsStores(r.Met(), st.id, connected, r.Fate(r.calls));
      r.PersistConnected(st.id, connected);
    }
    SavingFollows(h1, t1, r.history, r.trace, n, st.id, memory);
    NothingIsKnown(r.history[n], st.id);
    FollowsIsSafe(r.history, r.trace, n, |r.trace|, st.id, Nothing, memory);
    if Present(r.history[n], st.id) && !InSync(r.history[n], st.id) {
      StuckPhase(r.history, r.trace, n, |r.trace|, st.id);
    }
  }

  /** Saving the status, if it is saved at all, ends the run. */
  lemma SavingFollows(h1: seq<World>, t1: seq<Act>, h: seq<World>, t: seq<Act>, from: nat, id: string, m: Memory)
    requires from <= |t1| < |h1| && h1 <= h && t1 <= t && |t| < |h| && Follows(h1, t1, from, |t1|, id, Nothing, m)
    requires forall i :: |t1| <= i < |t| ==> t[i].Disturbed? || (t[i].SaveConnected? && t[i].id == id)
    ensures Follows(h, t, from, |t|, id, Nothing, m) && Runs(h, t, from, |t|, id)
  {
    hide Follows;
    FollowsStay(h, t, |t1|, |t|, id, m);
    FollowsGrows(h1, t1, h, t, from, |t1|, id, Nothing, m);
    FollowsJoin(h, t, from, |t1|, |t|, id, Nothing, m, m);
  }

  lemma SavingKeepsStores(w: World, id: string, connected: bool, o: Outcome)
    ensures SameStores(w, Perform(w, SaveConnected(id, connected, o)))
    ensures var e := Perform(w, SaveConnected(id, connected, o));
            o != Dropped && id in e.instances ==> e.instances[id] == connected
  {
  }

  lemma {:induction false} SafePhase(h: seq<World>, t: seq<Act>, from: nat, upto: nat, id: string)
    requires Replayed(h, t) && from <= upto <= |t| && NoSlash(id) && Safe(h[from], id)
    requires forall i :: from <= i < upto ==> Allowed(h[i], t[i], id)
    ensures Safe(h[upto], id)
    decreases upto
  {
    if from < upto {
      hide *;
      SafePhase(h, t, from, upto - 1, id);
      ReplayedAt(h, t, upto - 1);
      AllowedKeepsSafe(h[upto - 1], t[upto - 1], id, id);
    }
  }

  /** As long as nothing is written, an instance that is out of sync stays out of sync. */
  lemma {:induction false} StuckPhase(h: seq<World>, t: seq<Act>, from: nat, upto: nat, id: string)
    requires Replayed(h, t) && from <= upto <= |t| && NoSlash(id) && Safe(h[from], id)
    requires forall i :: from <= i < upto ==> Allowed(h[i], t[i], id) && !Touches(t[i])
    requires Present(h[from], id) && !InSync(h[from], id)
    ensures Present(h[upto], id) && !InSync(h[upto], id)
    decreases upto
  {
    if from < upto {
      hide Perform, Safe, InSync, Replayed;
      StuckPhase(h, t, from, upto - 1, id);
      SafePhase(h, t, from, upto - 1, id);
      ReplayedAt(h, t, upto - 1);
      var w, act := h[upto - 1], t[upto - 1];
      match act
      case Disturbed(a) =>
        PerformDisturbs(w, a);
        DisturbKeepsInSync(w, a, id);
      case SaveConnected(id', c, o) =>
        SavingKeepsStores(w, id', c, o);
        SameStoresSameSync(w, Perform(w, act), id);
      case _ => ReadsChangeNothing(w, act);
    }
  }

  lemma SameStoresSameSync(w: World, w': World, id: string)
    requires SameStores(w, w')
    ensures InSync(w', id) <==> InSync(w, id)
    ensures Present(w', id) <==> Present(w, id)
  {
  }

  // ------------------------------------------------------------------- theorems

  /**
   Exact recovery. A fault-free reconcile of a registered instance ends in sync exactly if it started in sync. Then the
   requested password, if any, is PostgreSQL's and Vault's, the request is gone, the login is the same and nothing else
   has changed; otherwise nothing at all has changed.
   */
  lemma RecoveryIsExact(w: World, id: string)
    requires Safe(w, id) && Present(w, id)
    ensures var e, login := Reconciled(w, id), Listed(w, id, "login");
            && (InSync(e, id) <==> InSync(w, id))
            && (!InSync(w, id) ==> e == w)
            && (InSync(w, id) ==>
                && Present(e, id) && Listed(e, id, "login") == login
                && ActualPassword(e, id, login) == Listed(e, id, "password")
                && Listed(e, id, "password") == (if Listed(w, id, "new_password") == "" then Listed(w, id, "password")
                                                 else Listed(w, id, "new_password"))
                && Listed(e, id, "new_password") == ""
                && OnlyTheseDiffer(w, e, id, login))
  {
  }

  /** Everything but one secret and one password is the same. */
  ghost predicate OnlyTheseDiffer(w: World, e: World, id: string, login: string) {
    && e == w.(vault := e.vault, servers := e.servers)
    && (forall path :: path != AdminPath(w.mount, id) ==>
          (path in e.vault <==> path in w.vault) && (path in w.vault ==> e.vault[path] == w.vault[path]))
    && (forall id' :: id' != id ==> ServerOf(e, id') == ServerOf(w, id'))
    && SameCatalogs(ServerOf(w, id), ServerOf(e, id))
    && (forall u :: u != login ==> ActualPassword(e, id, u) == ActualPassword(w, id, u))
  }

  /** Registration is exact: exactly if the default credentials work, they become the instance's own. */
  lemma RegistrationIsExact(w: World, id: string)
    requires Safe(w, id) && !Present(w, id)
    ensures var e, default := Reconciled(w, id), Answer(w, ReadDefault);
            var works := default.Credentials?
                && CanConnect(ServerOf(w, id), Conn(default.login, default.password, DEFAULT_DB));
            && (Present(e, id) <==> works)
            && (works ==> InSync(e, id) && ListedLogin(e, id) == Login(default.login, default.password)
                          && OnlyTheseDiffer(w, e, id, default.login) && e.servers == w.servers)
            && (!works ==> e == w)
  {
    DefaultPathIsApart(w.mount, id, "instance_admin");
  }

  /**
   The state from which nothing recovers is reachable: after an ALTER that took effect, stopping before the commit
   leaves the instance out of sync, exactly if the requested password is a different one.
   */
  lemma CrashAfterAlter(w: World, id: string, o: Outcome)
    requires Safe(w, id) && InSync(w, id) && Listed(w, id, "new_password") != "" && o != Dropped
    ensures var newPassword := Listed(w, id, "new_password");
            var alter := Sql(id, On(ListedLogin(w, id), DEFAULT_DB), AlterUser(Listed(w, id, "login"), newPassword), o);
            && Allowed(w, alter, id)
            && (InSync(Perform(w, alter), id) <==> newPassword == Listed(w, id, "password"))
  {
  }

  /** A request is gone from Vault and PostgreSQL has not got its password. */
  predicate RequestLost(w: World, w': World, id: string) {
    && Listed(w, id, "new_password") != "" && Listed(w', id, "new_password") == ""
    && ActualPassword(w', id, Listed(w', id, "login")) != Listed(w, id, "new_password")
  }

  /** A write of the secret loses a request exactly if one for another password than the one written is pending. */
  lemma PutLosesRequestIff(w: World, act: Act, id: string)
    requires act.VaultPut? && act.outcome != Dropped && Allowed(w, act, id)
    ensures RequestLost(w, Perform(w, act), id) <==> Listed(w, id, "new_password") !in {"", act.secret["password"]}
  {
    PutWrites(w, act.path, act.secret, act.outcome);
  }

  /** While nothing is written, a pending request stays pending. */
  lemma {:induction false} StillPending(h: seq<World>, t: seq<Act>, from: nat, upto: nat, id: string,
                                        newPassword: string)
    requires Replayed(h, t) && from <= upto <= |t| && NoSlash(id)
    requires Listed(h[from], id, "new_password") == newPassword && newPassword != ""
    requires forall i :: from <= i < upto ==> Looks(t[i]) || (t[i].VaultPut? && t[i].outcome == Dropped)
    ensures Listed(h[upto], id, "new_password") == newPassword
    decreases upto
  {
    if from < upto {
      hide Perform, Replayed;
      StillPending(h, t, from, upto - 1, id, newPassword);
      ReplayedAt(h, t, upto - 1);
      var w, act := h[upto - 1], t[upto - 1];
      if act.VaultPut? {
        PutWrites(w, act.path, act.secret, act.outcome);
      } else {
        LookChangesNothing(w, act, id);
      }
    }
  }

  /**
   So the commit of a rotation loses a request only when it is tried again: before a write that does, one of the same
   commit took effect without being acknowledged, and the request came in between.
   */
  lemma CommitLosesOnlyAfterLostAck(h: seq<World>, t: seq<Act>, from: nat, i: nat, id: string, newPassword: string)
    requires Replayed(h, t) && |h| == |t| + 1 && from <= i < |t| && NoSlash(id)
    requires Listed(h[from], id, "new_password") == newPassword && newPassword != ""
    requires forall k :: from <= k < |t| ==> WriteAct(h[k], t[k], RotateAdmin(id, newPassword))
    requires LastAcked(t, from, true)
    requires t[i].VaultPut? && Listed(h[i], id, "new_password") !in {"", newPassword}
    ensures exists k :: from <= k < i && t[k].VaultPut? && t[k].outcome == LostAck
  {
    if forall k :: from <= k < i && t[k].VaultPut? ==> t[k].outcome != LostAck {
      hide Perform, Replayed;
      StillPending(h, t, from, i, id, newPassword);
    }
  }

  /** While nothing is written, an instance that has no secret has none. */
  lemma {:induction false} StillUnregistered(h: seq<World>, t: seq<Act>, from: nat, upto: nat, id: string)
    requires Replayed(h, t) && from <= upto <= |t| && NoSlash(id) && !Present(h[from], id)
    requires forall i :: from <= i < upto ==> Looks(t[i]) || (t[i].VaultPut? && t[i].outcome == Dropped)
    ensures !Present(h[upto], id)
    decreases upto
  {
    if from < upto {
      hide Perform, Replayed;
      StillUnregistered(h, t, from, upto - 1, id);
      ReplayedAt(h, t, upto - 1);
      var w, act := h[upto - 1], t[upto - 1];
      if act.VaultPut? {
        PutWrites(w, act.path, act.secret, act.outcome);
      } else {
        LookChangesNothing(w, act, id);
      }
    }
  }

  /** A registration too: the first write that takes effect finds no secret, and so no request. */
  lemma RegistrationLosesOnlyAfterLostAck(h: seq<World>, t: seq<Act>, from: nat, i: nat, id: string, creds: Login)
    requires Replayed(h, t) && |h| == |t| + 1 && from <= i < |t| && NoSlash(id) && !Present(h[from], id)
    requires forall k :: from <= k < |t| ==> WriteAct(h[k], t[k], StoreAdmin(id, creds.name, creds.password))
    requires LastAcked(t, from, true)
    requires t[i].VaultPut? && Listed(h[i], id, "new_password") !in {"", creds.password}
    ensures exists k :: from <= k < i && t[k].VaultPut? && t[k].outcome == LostAck
  {
    if forall k :: from <= k < i && t[k].VaultPut? ==> t[k].outcome != LostAck {
      hide Perform, Replayed;
      StillUnregistered(h, t, from, i, id);
    }
  }

  /** What the program writes to the secret, when it does. */
  function Carried(m: Memory): Secret
    requires m.Storing? || m.Recommitting?
  {
    if m.Storing? then map["login" := m.creds.name, "password" := m.creds.password]
    else map["login" := m.login, "password" := m.newPassword]
  }

  /**
   And both do then: whenever the program is writing the secret, a lost acknowledgement makes it lose the request of
   another password that comes before it writes again.
   */
  lemma RetriedWriteLosesRequest(w: World, id: string, m: Memory, request: string)
    requires NoSlash(id) && (m.Storing? || m.Recommitting?) && Knows(w, id, m)
    requires request !in {"", Carried(m)["password"]}
    ensures var path, secret := AdminPath(w.mount, id), Carried(m);
            var t := [VaultPut(path, secret, LostAck), Disturbed(RequestRotation(id, request)),
                      VaultPut(path, secret, Acked)];
            var w1 := Perform(w, t[0]);
            var w2 := Perform(w1, t[1]);
            var h := [w, w1, w2, Perform(w2, t[2])];
            && Replayed(h, t) && Follows(h, t, 0, |t|, id, m, m)
            && Listed(w2, id, "new_password") == request && RequestLost(w2, h[3], id)
  {
    var path, secret := AdminPath(w.mount, id), Carried(m);
    var t := [VaultPut(path, secret, LostAck), Disturbed(RequestRotation(id, request)),
              VaultPut(path, secret, Acked)];
    hide Perform, Replayed, Follows, Step, Knows, RequestLost, Listed, ActualPassword;
    ThreeActs(w, t);
    var w1 := Perform(w, t[0]);
    var w2 := Perform(w1, t[1]);
    CarriedWorks(w, id, m);
    RewriteDropsRequest(w, id, secret, request);
    ActsKeepTheFrame(w, t[0]);
    ActsKeepTheFrame(w1, t[1]);
    PutIsStep(w, id, LostAck, m);
    PutIsStep(w2, id, Acked, m);
    OthersAreSteps(w1, RequestRotation(id, request), id, m);
    FollowsStay([w, w1, w2, Perform(w2, t[2])], t, 0, |t|, id, m);
  }

  lemma CarriedWorks(w: World, id: string, m: Memory)
    requires (m.Storing? || m.Recommitting?) && Knows(w, id, m)
    ensures ActualPassword(w, id, Carried(m)["login"]) == Carried(m)["password"]
  {
  }

  lemma RewriteDropsRequest(w: World, id: string, secret: Secret, request: string)
    requires NoSlash(id) && secret.Keys == {"login", "password"} && request !in {"", secret["password"]}
    requires ActualPassword(w, id, secret["login"]) == secret["password"]
    ensures var path := AdminPath(w.mount, id);
            var w1 := Perform(w, VaultPut(path, secret, LostAck));
            var w2 := Perform(w1, Disturbed(RequestRotation(id, request)));
            Listed(w2, id, "new_password") == request && RequestLost(w2, Perform(w2, VaultPut(path, secret, Acked)), id)
  {
    hide Perform;
    var path := AdminPath(w.mount, id);
    PutWrites(w, path, secret, LostAck);
    var w1 := Perform(w, VaultPut(path, secret, LostAck));
    PerformDisturbs(w1, RequestRotation(id, request));
    var w2 := Perform(w1, Disturbed(RequestRotation(id, request)));
    PutWrites(w2, path, secret, Acked);
  }

  lemma PutIsStep(w: World, id: string, o: Outcome, m: Memory)
    requires m.Storing? || m.Recommitting?
    ensures Step(m, w, VaultPut(AdminPath(w.mount, id), Carried(m), o), id, m)
  {
  }

  lemma OthersAreSteps(w: World, who: Outside, id: string, m: Memory)
    ensures Step(m, w, Disturbed(who), id, m)
  {
  }

  /** The requeue loop: `rounds` reconciles of one instance, one after the other. */
  method ReconcileRepeatedly(r: Remote, cfg: Config, st: InstanceStatus, address: string, connErr: string, rounds: nat)
    requires r.Valid() && NoSlash(st.id) && Safe(r.world, st.id)
    modifies r, st
    ensures r.Grew() && Safe(r.world, st.id)
    ensures Runs(r.history, r.trace, |old(r.trace)|, |r.trace|, st.id)
    ensures forall i :: |old(r.trace)| <= i < |r.trace| ==> Allowed(r.history[i], r.trace[i], st.id)
    // No number of reconciles, faulty or not, heals an instance that is out of sync.
    ensures Present(old(r.world), st.id) && !InSync(old(r.world), st.id) ==>
              && Present(r.world, st.id) && !InSync(r.world, st.id)
              && forall i :: |old(r.trace)| <= i < |r.trace| ==> !Touches(r.trace[i])
  {
    hide Perform, Disturb, Replayed, Allowed, Safe, InSync, Touches, Present, Reconciled, Resolved, Runs;
    ghost var n := |r.trace|;
    RunStarts(r.history, r.trace, st.id);
    for k := 0 to rounds
      invariant r.Grew() && Safe(r.world, st.id) && Runs(r.history, r.trace, n, |r.trace|, st.id)
      invariant forall i :: |old(r.trace)| <= i < |r.trace| ==> Allowed(r.history[i], r.trace[i], st.id)
      invariant Present(old(r.world), st.id) && !InSync(old(r.world), st.id) ==>
                  && Present(r.world, st.id) && !InSync(r.world, st.id)
                  && forall i :: |old(r.trace)| <= i < |r.trace| ==> !Touches(r.trace[i])
    {
      ghost var h1, t1 := r.history, r.trace;
      ReconcileExternalInstance(r, cfg, st, address, connErr);
      RunsJoin(h1, t1, r.history, r.trace, n, st.id);
    }
  }

  lemma RunStarts(h: seq<World>, t: seq<Act>, id: string)
    requires |t| < |h|
    ensures Runs(h, t, |t|, |t|, id)
  {
    assert Follows(h, t, |t|, |t|, id, Nothing, Nothing);
  }
}
