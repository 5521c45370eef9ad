/**
 The operator's view of Vault: where secrets live, the reads and writes on them, and the retry wrappers around
 both. The wrappers share one read loop and one write loop; which call they repeat is a value.
 */
module VaultStore {
  import opened Basics
  import opened Cluster
  import Backoff

  // ------------------------------------------------------------------- paths

  /** With IDs free of '/', a path determines the ID and the name below it, whatever the name contains. */
  lemma PathsAreInjective(mount: string, id: string, name: string, id': string, name': string)
    requires NoSlash(id) && NoSlash(id')
    requires UserPath(mount, id, name) == UserPath(mount, id', name')
    ensures id == id' && name == name'
  {
    var s, s' := id + ("/" + name), id' + ("/" + name');
    assert s == UserPath(mount, id, name)[|mount| + 1..];
    assert s' == UserPath(mount, id', name')[|mount| + 1..];
    assert s[|id|] == '/' && forall k :: 0 <= k < |id| ==> s[k] == id[k] && s[k] != '/';
    assert s'[|id'|] == '/' && forall k :: 0 <= k < |id'| ==> s'[k] == id'[k] && s'[k] != '/';
    assert |id| == |id'|;
    assert id == s[..|id|] && id' == s'[..|id'|];
    assert name == s[|id| + 1..] && name' == s'[|id'| + 1..];
  }

  /** The default secret is nobody else's. */
  lemma DefaultPathIsApart(mount: string, id: string, name: string)
    ensures DefaultPath(mount) != UserPath(mount, id, name)
  {
    var s := id + ("/" + name);
    assert UserPath(mount, id, name)[|mount| + 1..] == s && s[|id|] == '/';
    assert DefaultPath(mount)[|mount| + 1..] == "default" && '/' !in "default";
    assert '/' in s;
  }

  /** The condition on IDs cannot be dropped. */
  lemma SlashesCollide(mount: string)
    ensures AdminPath(mount, "a/b") == UserPath(mount, "a", "b/instance_admin")
  {
    assert "a/b" + ("/" + "instance_admin") == "a" + ("/" + "b/instance_admin");
  }

  /** Others leave login and password of an admin secret alone, and the whole secret while a rotation is pending. */
  lemma DisturbKeepsAdminSecret(w: World, a: Outside, id: string)
    requires NoSlash(id)
    ensures var path, w' := AdminPath(w.mount, id), Disturb(w, a);
            && w'.mount == w.mount
            && (path in w'.vault <==> path in w.vault)
            && (path in w.vault ==>
                && Field(w'.vault[path], "login") == Field(w.vault[path], "login")
                && Field(w'.vault[path], "password") == Field(w.vault[path], "password")
                && (Field(w.vault[path], "new_password") != "" ==> w'.vault[path] == w.vault[path]))
            && (DefaultPath(w.mount) in w'.vault <==> DefaultPath(w.mount) in w.vault)
            && (DefaultPath(w.mount) in w.vault ==>
                w'.vault[DefaultPath(w.mount)] == w.vault[DefaultPath(w.mount)])
  {
    match a
    case OtherSecret(id', username, _) =>
      DefaultPathIsApart(w.mount, id', username);
      if NoSlash(id') && UserPath(w.mount, id', username) == AdminPath(w.mount, id) {
        PathsAreInjective(w.mount, id', username, id, "instance_admin");
      }
    case RequestRotation(id', _) =>
      DefaultPathIsApart(w.mount, id', "instance_admin");
    case _ =>
  }

  // ------------------------------------------------------------------- reads

  datatype VaultRead = ReadAdmin(id: string) | ReadDefault | ReadNewPassword(id: string) | ReadUser(id: string,
                                                                                                    username: string)

  datatype Reply = Credentials(login: string, password: string) | Password(text: string) | NotFound | Failed

  function ReadPath(mount: string, op: VaultRead): string {
    match op
    case ReadAdmin(id) => AdminPath(mount, id)
    case ReadDefault => DefaultPath(mount)
    case ReadNewPassword(id) => AdminPath(mount, id)
    case ReadUser(id, username) => UserPath(mount, id, username)
  }

  /** What a working read must report in state w. A missing user secret is an ordinary failure. */
  function Answer(w: World, op: VaultRead): Reply {
    var path := ReadPath(w.mount, op);
    if path !in w.vault then (if op.ReadUser? then Failed else NotFound)
    else
      var secret := w.vault[path];
      match op
      case ReadNewPassword(_) => Password(Field(secret, "new_password"))
      case ReadUser(_, _) => if Field(secret, "password") == "" then Failed else Password(Field(secret, "password"))
      case _ =>
        if Field(secret, "login") == "" || Field(secret, "password") == "" then Failed
        else Credentials(Field(secret, "login"), Field(secret, "password"))
  }

  method GetCredentials(r: Remote, path: string) returns (reply: Reply)
    requires r.Valid()
    modifies r
    ensures r.Called(VaultGet(path, r.Fate(old(r.calls)))) && r.world == old(r.Met())
    ensures reply == if r.Fate(old(r.calls)) != Acked then Failed
                     else if path !in r.world.vault then NotFound
                     else var s := r.world.vault[path];
                          if Field(s, "login") == "" || Field(s, "password") == "" then Failed
                          else Credentials(Field(s, "login"), Field(s, "password"))
  {
    hide Perform, Disturb, Replayed;
    var secret := r.Get(path);
    match secret
    case Unreachable => reply := Failed;
    case Missing => reply := NotFound;
    case Found(s) =>
      var login, password := Field(s, "login"), Field(s, "password");
      if login == "" || password == "" {
        return Failed;
      }
      reply := Credentials(login, password);
  }

  method GetInstanceAdminNewPassword(r: Remote, id: string) returns (reply: Reply)
    requires r.Valid()
    modifies r
    ensures r.Called(VaultGet(AdminPath(r.world.mount, id), r.Fate(old(r.calls)))) && r.world == old(r.Met())
    ensures reply == if r.Fate(old(r.calls)) != Acked then Failed else Answer(r.world, ReadNewPassword(id))
  {
    hide Perform, Disturb, Replayed;
    var secret := r.Get(AdminPath(r.world.mount, id));
    match secret
    case Unreachable => reply := Failed;
    case Missing => reply := NotFound;
    case Found(s) => reply := Password(Field(s, "new_password"));
  }

  method GetPostgresqlUserCredentials(r: Remote, id: string, username: string) returns (reply: Reply)
    requires r.Valid()
    modifies r
    ensures r.Called(VaultGet(UserPath(r.world.mount, id, username), r.Fate(old(r.calls)))) && r.world == old(r.Met())
    ensures reply == if r.Fate(old(r.calls)) != Acked then Failed else Answer(r.world, ReadUser(id, username))
  {
    hide Perform, Disturb, Replayed;
    var secret := r.Get(UserPath(r.world.mount, id, username));
    match secret
    case Unreachable => reply := Failed;
    case Missing => reply := Failed;
    case Found(s) =>
      if Field(s, "password") == "" {
        return Failed;
      }
      reply := Password(Field(s, "password"));
  }

  predicate ReadAct(act: Act, path: string) {
    act.Disturbed? || (act.VaultGet? && act.path == path)
  }

  /** A read that could not give an answer. */
  ghost predicate Refused(w: World, act: Act, op: VaultRead) {
    act.VaultGet? ==> act.outcome != Acked || Answer(w, op).Failed?
  }

  lemma OnlyReadsAreRefused(w: World, act: Act, op: VaultRead)
    requires act.Disturbed?
    ensures Refused(w, act, op)
  {
  }

  method ReadOnce(r: Remote, op: VaultRead) returns (reply: Reply)
    requires r.Valid()
    modifies r
    ensures r.Grew() && r.clock == old(r.clock)
    ensures |r.trace| == |old(r.trace)| + 2 && r.trace[|r.trace| - 1].VaultGet? && r.trace[|r.trace| - 2].Disturbed?
    ensures forall i :: |old(r.trace)| <= i < |r.trace| ==> ReadAct(r.trace[i], ReadPath(r.world.mount, op))
    ensures reply.Failed? ==> forall i :: |old(r.trace)| <= i < |r.trace| ==> Refused(r.history[i], r.trace[i], op)
    ensures !reply.Failed? ==> reply == Answer(r.world, op) && r.trace[|r.trace| - 1].outcome == Acked
    ensures r.Calm(old(r.calls)) ==> r.world == old(r.world) && reply == Answer(r.world, op)
  {
    hide Perform, Disturb, Replayed;
    match op
    case ReadAdmin(id) => reply := GetCredentials(r, AdminPath(r.world.mount, id));
    case ReadDefault => reply := GetCredentials(r, DefaultPath(r.world.mount));
    case ReadNewPassword(id) => reply := GetInstanceAdminNewPassword(r, id);
    case ReadUser(id, username) => reply := GetPostgresqlUserCredentials(r, id, username);
  }

  /** The operator's settings; `vault` says whether a Vault client is configured. */
  datatype Config = Config(vault: bool, vaultRetries: int, vaultBase: nat, pgRetries: int, pgBase: nat)

  /** Every backoff of a loop of `retries` attempts lies in the region where the arithmetic is exact. */
  ghost predicate WaitsDefined(base: nat, retries: int) {
    retries >= 2 ==> Backoff.Defined(base, retries - 1)
  }

  function Waits(retries: int): nat {
    if retries >= 1 then retries - 1 else 0
  }

  /** The four read wrappers. A missing secret ends the loop at once; any other failure is tried again. */
  method ReadWithRetry(r: Remote, op: VaultRead, retries: int, base: nat) returns (reply: Reply)
    requires r.Valid()
    modifies r
    ensures r.Grew()
    ensures forall i :: |old(r.trace)| <= i < |r.trace| ==> ReadAct(r.trace[i], ReadPath(r.world.mount, op))
    // A failure means that no attempt could have succeeded; the first answer, a missing secret included, is the last
    // attempt.
    ensures reply.Failed? ==> forall i :: |old(r.trace)| <= i < |r.trace| ==> Refused(r.history[i], r.trace[i], op)
    ensures forall i :: |old(r.trace)| <= i < |r.trace| - 1 ==> Refused(r.history[i], r.trace[i], op)
    ensures |r.trace| <= |old(r.trace)| + (if retries >= 1 then 2 * retries else 0)
    ensures !reply.Failed? ==>
              reply == Answer(r.world, op) && |r.trace| > |old(r.trace)| && r.trace[|r.trace| - 1].VaultGet?
              && r.trace[|r.trace| - 1].outcome == Acked
    ensures retries >= 1 ==> |r.trace| > |old(r.trace)| && r.trace[|r.trace| - 1].VaultGet?
    ensures r.Calm(old(r.calls)) ==> r.world == old(r.world)
    ensures r.Calm(old(r.calls)) && retries >= 1 ==> reply == Answer(r.world, op)
    ensures WaitsDefined(base, retries) ==> r.clock - old(r.clock) <= Backoff.MaxWait(base, Waits(retries))
  {
    reply := Failed;
    hide Perform, Disturb, Replayed, Answer, ReadAct, Refused, Backoff.Longest, Backoff.Defined;
    var attempt, done := 1, false;
    ghost var t0, c0 := |r.trace|, r.clock;
    while !done && attempt <= retries
      invariant 1 <= attempt && (attempt == 1 || attempt <= retries + 1)
      invariant r.Grew()
      invariant forall i :: t0 <= i < |r.trace| ==> ReadAct(r.trace[i], ReadPath(r.world.mount, op))
      invariant reply.Failed? ==> forall i :: t0 <= i < |r.trace| ==> Refused(r.history[i], r.trace[i], op)
      invariant forall i :: t0 <= i < |r.trace| - 1 ==> Refused(r.history[i], r.trace[i], op)
      invariant done && !reply.Failed? ==> attempt <= retries
      invariant |r.trace| == t0 + 2 * (attempt - 1) + (if done && !reply.Failed? then 2 else 0)
      invariant !reply.Failed? ==> done && reply == Answer(r.world, op) && |r.trace| > t0
      invariant !reply.Failed? ==> r.trace[|r.trace| - 1].VaultGet? && r.trace[|r.trace| - 1].outcome == Acked
      invariant attempt > 1 || done ==> |r.trace| > t0 && r.trace[|r.trace| - 1].VaultGet?
      invariant r.Calm(old(r.calls)) ==> r.world == old(r.world)
      invariant r.Calm(old(r.calls)) && (attempt > 1 || done) ==> reply == Answer(r.world, op)
      invariant WaitsDefined(base, retries) ==>
                  r.clock - c0 <= Backoff.MaxWait(base, if attempt <= retries then attempt - 1 else Waits(retries))
    {
      ghost var n := |r.trace|;
      reply := ReadOnce(r, op);
      OnlyReadsAreRefused(r.history[n], r.trace[n], op);
      if !reply.Failed? {
        done := true;
      } else {
        if attempt < retries {
          if WaitsDefined(base, retries) {
            Backoff.DefinedIsMonotone(base, attempt, retries - 1);
          }
          done := r.Pause(base, attempt);
        }
        attempt := attempt + 1;
      }
    }
    Backoff.MaxWaitIsMonotone(base, if attempt <= retries then attempt - 1 else Waits(retries), Waits(retries));
  }

  // ------------------------------------------------------------------ writes

  datatype VaultWrite =
    | StoreAdmin(id: string, login: string, password: string)
    | RotateAdmin(id: string, newPassword: string)
    | StoreUser(id: string, username: string, password: string)

  function WritePath(mount: string, op: VaultWrite): string {
    match op
    case StoreAdmin(id, _, _) => AdminPath(mount, id)
    case RotateAdmin(id, _) => AdminPath(mount, id)
    case StoreUser(id, username, _) => UserPath(mount, id, username)
  }

  /** The whole secret a write leaves: every other field, new_password included, is gone. */
  function Payload(w: World, op: VaultWrite): Secret {
    match op
    case StoreAdmin(_, login, password) => map["login" := login, "password" := password]
    case RotateAdmin(id, newPassword) =>
      var path := AdminPath(w.mount, id);
      map["login" := if path in w.vault then Field(w.vault[path], "login") else "", "password" := newPassword]
    case StoreUser(_, _, password) => map["password" := password]
  }

  function Written(w: World, op: VaultWrite): World {
    w.(vault := w.vault[WritePath(w.mount, op) := Payload(w, op)])
  }

  /** Rotation keeps the login it finds, so it needs one. */
  predicate Writable(w: World, op: VaultWrite) {
    op.RotateAdmin? ==>
      AdminPath(w.mount, op.id) in w.vault && Field(w.vault[AdminPath(w.mount, op.id)], "login") != ""
  }

  predicate WritesCleanly(op: VaultWrite) {
    op.RotateAdmin? ==> NoSlash(op.id)
  }

  ghost predicate WriteAct(w: World, act: Act, op: VaultWrite) {
    || act.Disturbed?
    || (act.VaultGet? && act.path == WritePath(w.mount, op))
    || (act.VaultPut? && act.path == WritePath(w.mount, op) && (WritesCleanly(op) ==> act.secret == Payload(w, op)))
  }

  /** A commit carries the login that the read right before it found. */
  ghost predicate CarriesLogin(h: seq<World>, t: seq<Act>, from: nat, i: nat, op: VaultWrite)
    requires i < |t| < |h|
  {
    op.RotateAdmin? && t[i].VaultPut? ==>
      && i >= from + 2 && t[i - 1].Disturbed?
      && t[i - 2].VaultGet? && t[i - 2].outcome == Acked && t[i - 2].path == t[i].path && t[i].path in h[i - 2].vault
      && var login := Field(h[i - 2].vault[t[i].path], "login");
      && login != "" && t[i].secret == map["login" := login, "password" := op.newPassword]
  }

  lemma StillCarriesLogin(h1: seq<World>, t1: seq<Act>, h: seq<World>, t: seq<Act>, from: nat, op: VaultWrite)
    requires from <= |t1| < |h1| && |t| < |h| && h1 <= h && t1 <= t
    requires forall i :: from <= i < |t1| ==> CarriesLogin(h1, t1, from, i, op)
    requires forall i :: |t1| <= i < |t| ==> CarriesLogin(h, t, |t1|, i, op)
    ensures forall i :: from <= i < |t| ==> CarriesLogin(h, t, from, i, op)
  {
    forall i | from <= i < |t|
      ensures CarriesLogin(h, t, from, i, op)
    {
      if i < |t1| {
        assert CarriesLogin(h1, t1, from, i, op);
        assert t[i] == t1[i] && (i >= 2 ==> t[i - 1] == t1[i - 1] && t[i - 2] == t1[i - 2] && h[i - 2] == h1[i - 2]);
      } else {
        assert CarriesLogin(h, t, |t1|, i, op);
      }
    }
  }

  /** No write before the last act was acknowledged, and none at all unless the whole succeeded. */
  ghost predicate LastAcked(t: seq<Act>, from: nat, ok: bool) {
    forall i :: from <= i < (if ok then |t| - 1 else |t|) && t[i].VaultPut? ==> t[i].outcome != Acked
  }

  /** The read-modify-write of a rotation. */
  method RotateInstanceAdminPassword(r: Remote, id: string, newPassword: string) returns (ok: bool)
    requires r.Valid()
    modifies r
    ensures r.Grew() && r.clock == old(r.clock)
    ensures forall i :: |old(r.trace)| <= i < |r.trace| ==>
              && WriteAct(r.history[i], r.trace[i], RotateAdmin(id, newPassword))
              && CarriesLogin(r.history, r.trace, |old(r.trace)|, i, RotateAdmin(id, newPassword))
    ensures LastAcked(r.trace, |old(r.trace)|, ok)
    ensures ok ==>
              |r.trace| > |old(r.trace)| && r.trace[|r.trace| - 1].VaultPut? && r.trace[|r.trace| - 1].outcome == Acked
    ensures r.Calm(old(r.calls)) ==>
              ok == Writable(old(r.world), RotateAdmin(id, newPassword))
    ensures r.Calm(old(r.calls)) ==>
              r.world == if ok then Written(old(r.world), RotateAdmin(id, newPassword)) else old(r.world)
  {
    hide Perform, Disturb, Replayed;
    var path := AdminPath(r.world.mount, id);
    var secret := r.Get(path);
    if !secret.Found? {
      return false;
    }
    var login := Field(secret.secret, "login");
    if login == "" {
      return false;
    }
    if NoSlash(id) {
      DisturbKeepsAdminSecret(r.world, r.OthersAt(r.calls), id);
    }
    ok := r.Put(path, map["login" := login, "password" := newPassword]);
  }

  method WriteOnce(r: Remote, op: VaultWrite) returns (ok: bool)
    requires r.Valid()
    modifies r
    ensures r.Grew() && r.clock == old(r.clock)
    ensures forall i :: |old(r.trace)| <= i < |r.trace| ==>
              WriteAct(r.history[i], r.trace[i], op) && CarriesLogin(r.history, r.trace, |old(r.trace)|, i, op)
    ensures LastAcked(r.trace, |old(r.trace)|, ok)
    ensures ok ==>
              |r.trace| > |old(r.trace)| && r.trace[|r.trace| - 1].VaultPut? && r.trace[|r.trace| - 1].outcome == Acked
    ensures r.Calm(old(r.calls)) ==> ok == Writable(old(r.world), op)
    ensures r.Calm(old(r.calls)) ==>
              r.world == if ok then Written(old(r.world), op) else old(r.world)
  {
    hide Perform, Disturb, Replayed;
    match op
    case StoreAdmin(id, login, password) =>
      ok := r.Put(AdminPath(r.world.mount, id), map["login" := login, "password" := password]);
    case RotateAdmin(id, newPassword) =>
      ok := RotateInstanceAdminPassword(r, id, newPassword);
    case StoreUser(id, username, password) =>
      ok := r.Put(UserPath(r.world.mount, id, username), map["password" := password]);
  }

  lemma StillLastAcked(t1: seq<Act>, t: seq<Act>, from: nat, ok: bool)
    requires from <= |t1| && t1 <= t && LastAcked(t1, from, false) && LastAcked(t, |t1|, ok)
    ensures LastAcked(t, from, ok)
  {
  }

  lemma NothingAcked(t: seq<Act>)
    ensures LastAcked(t, |t|, false)
  {
  }

  /** The three write wrappers. */
  method WriteWithRetry(r: Remote, op: VaultWrite, retries: int, base: nat) returns (ok: bool)
    requires r.Valid()
    modifies r
    ensures r.Grew()
    ensures forall i :: |old(r.trace)| <= i < |r.trace| ==>
              WriteAct(r.history[i], r.trace[i], op) && CarriesLogin(r.history, r.trace, |old(r.trace)|, i, op)
    ensures LastAcked(r.trace, |old(r.trace)|, ok)
    ensures ok ==>
              |r.trace| > |old(r.trace)| && r.trace[|r.trace| - 1].VaultPut? && r.trace[|r.trace| - 1].outcome == Acked
    ensures r.Calm(old(r.calls)) ==> ok == (retries >= 1 && Writable(old(r.world), op))
    ensures r.Calm(old(r.calls)) ==>
              r.world == if ok then Written(old(r.world), op) else old(r.world)
    ensures retries < 1 ==> r.trace == old(r.trace)
    ensures WaitsDefined(base, retries) ==> r.clock - old(r.clock) <= Backoff.MaxWait(base, Waits(retries))
  {
    hide Perform, Disturb, Replayed, WriteAct, CarriesLogin, LastAcked, Written, Writable, Payload, Backoff.Longest,
         Backoff.Defined;
    ok := false;
    var attempt, done := 1, false;
    ghost var t0, c0 := |r.trace|, r.clock;
    NothingAcked(r.trace);
    while !done && attempt <= retries
      invariant 1 <= attempt && (attempt == 1 || attempt <= retries + 1)
      invariant r.Grew()
      invariant forall i :: t0 <= i < |r.trace| ==>
                  WriteAct(r.history[i], r.trace[i], op) && CarriesLogin(r.history, r.trace, t0, i, op)
      invariant LastAcked(r.trace, t0, ok) && (ok ==> done)
      invariant ok ==>
                  done && |r.trace| > t0 && r.trace[|r.trace| - 1].VaultPut? && r.trace[|r.trace| - 1].outcome == Acked
      invariant attempt > 1 || done ==> retries >= 1
      invariant !done && attempt == 1 ==> r.trace == old(r.trace)
      invariant r.Calm(old(r.calls)) ==> ok == ((attempt > 1 || done) && Writable(old(r.world), op))
      invariant r.Calm(old(r.calls)) ==> r.world == if ok then Written(old(r.world), op) else old(r.world)
      invariant WaitsDefined(base, retries) ==>
                  r.clock - c0 <= Backoff.MaxWait(base, if attempt <= retries then attempt - 1 else Waits(retries))
    {
      ghost var h, t := r.history, r.trace;
      ok := WriteOnce(r, op);
      StillCarriesLogin(h, t, r.history, r.trace, t0, op);
      StillLastAcked(t, r.trace, t0, ok);
      if ok {
        done := true;
      } else {
        if attempt < retries {
          if WaitsDefined(base, retries) {
            Backoff.DefinedIsMonotone(base, attempt, retries - 1);
          }
          done := r.Pause(base, attempt);
        }
        attempt := attempt + 1;
      }
    }
    Backoff.MaxWaitIsMonotone(base, if attempt <= retries then attempt - 1 else Waits(retries), Waits(retries));
  }
}
