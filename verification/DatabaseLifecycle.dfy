/**
 The life of a Database object: a finalizer that keeps it until its database has been dropped, creation and updates
 while it lives, and three ways to give up on the drop. Others may edit or delete the object between any two calls.
 */
module DatabaseLifecycle {
  import opened Basics
  import opened Cluster
  import opened VaultStore
  import opened PostgresOps
  import opened AdminSteps
  import opened AdminCredentials
  import opened UserPasswords

  const FINALIZER := "database.postgresql-operator.vyrodovalexey.github.com/finalizer"

  // ----------------------------------------------------------------- finalizers

  method ContainsString(items: seq<string>, s: string) returns (found: bool)
    ensures found <==> s in items
  {
    for k := 0 to |items|
      invariant s !in items[..k]
    {
      if items[k] == s {
        return true;
      }
    }
    found := false;
  }

  /** The list without an item; the others keep their order. */
  function Without(items: seq<string>, s: string): (r: seq<string>)
    ensures s !in r
    ensures forall x :: x != s ==> (x in r <==> x in items)
    ensures |r| <= |items| && (s !in items ==> r == items)
  {
    if items == [] then []
    else
      var rest := Without(items[1..], s);
      assert items == [items[0]] + items[1..];
      if items[0] == s then rest else [items[0]] + rest
  }

  lemma {:induction false} WithoutAppends(items: seq<string>, x: string, s: string)
    ensures Without(items + [x], s) == Without(items, s) + (if x == s then [] else [x])
  {
    if items == [] {
      assert items + [x] == [x];
    } else {
      assert (items + [x])[1..] == items[1..] + [x];
      WithoutAppends(items[1..], x, s);
    }
  }

  /** The first list is the second with some items left out. */
  predicate IsSublist(r: seq<string>, items: seq<string>) {
    r == [] || (items != [] && ((r[0] == items[0] && IsSublist(r[1..], items[1..])) || IsSublist(r, items[1..])))
  }

  /** Every occurrence goes; all others stay, as often as they are there, and in order. */
  lemma {:induction false} WithoutLeavesTheRest(items: seq<string>, s: string)
    ensures multiset(Without(items, s)) == multiset(items)[s := 0]
    ensures IsSublist(Without(items, s), items)
  {
    if items != [] {
      WithoutLeavesTheRest(items[1..], s);
      assert items == [items[0]] + items[1..];
      var rest := Without(items[1..], s);
      assert items[0] != s ==> ([items[0]] + rest)[1..] == rest;
    }
  }

  method RemoveString(items: seq<string>, s: string) returns (result: seq<string>)
    ensures result == Without(items, s)
    ensures multiset(result) == multiset(items)[s := 0] && IsSublist(result, items)
  {
    result := [];
    for k := 0 to |items|
      invariant result == Without(items[..k], s)
    {
      assert items[..k + 1] == items[..k] + [items[k]];
      WithoutAppends(items[..k], items[k], s);
      if items[k] != s {
        result := result + [items[k]];
      }
    }
    assert items[..|items|] == items;
    WithoutLeavesTheRest(items, s);
  }

  // ------------------------------------------------------------------ versions

  predicate Versioned(w: World) {
    w.database.Some? ==> w.database.value.version <= w.revision
  }

  lemma ActsVersion(w: World, act: Act)
    requires Versioned(w)
    ensures var w' := Perform(w, act);
            && Versioned(w') && w.revision <= w'.revision
            && (w'.database == w.database || w'.database.None? || w'.database.value.version > w.revision)
  {
    hide Apply, Accepted;
  }

  /** A version names one content: while the version is the one that was read, the object is the one that was read. */
  lemma {:induction false} SameVersionSameObject(h: seq<World>, t: seq<Act>, from: nat, upto: nat, c: DatabaseObject)
    requires Replayed(h, t) && from <= upto <= |t| && Versioned(h[from]) && h[from].database == Some(c)
    ensures Versioned(h[upto]) && h[from].revision <= h[upto].revision
    ensures Current(h[upto], c) ==> h[upto].database == Some(c)
    decreases upto
  {
    if from < upto {
      hide Perform, Replayed;
      SameVersionSameObject(h, t, from, upto - 1, c);
      ReplayedAt(h, t, upto - 1);
      ActsVersion(h[upto - 1], t[upto - 1]);
    }
  }

  // ----------------------------------------------------------------- vocabulary

  /** Its database is to be dropped. */
  predicate Doomed(c: DatabaseObject) {
    c.deleting && c.spec.deleteFromCRD && FINALIZER in c.finalizers
  }

  /** The index of the last fetch before i, -1 if there is none. */
  ghost function LastFetch(t: seq<Act>, i: nat): (k: int)
    requires i <= |t|
    ensures -1 <= k < i && (k >= 0 ==> t[k].ObjectFetch?)
    ensures forall j :: k < j < i ==> !t[j].ObjectFetch?
  {
    if i == 0 then -1 else if t[i - 1].ObjectFetch? then i - 1 else LastFetch(t, i - 1)
  }

  /** The copy the operator works with at i. */
  ghost function Seen(h: seq<World>, t: seq<Act>, i: nat): Option<DatabaseObject>
    requires i <= |t| < |h|
  {
    var k := LastFetch(t, i);
    if k >= 0 && t[k].outcome == Acked then h[k].database else None
  }

  /** Statements of the lifecycle, each with the copies it may be issued for. */
  ghost predicate Issued(stmt: Stmt, c: DatabaseObject) {
    match stmt
    case TerminateSessions(name) => Doomed(c) && name == c.spec.database
    case DropDatabase(name) => Doomed(c) && name == c.spec.database
    case CreateDatabase(name, owner, template) =>
      !c.deleting && name == c.spec.database && owner == c.spec.owner && template == c.spec.template
    case AlterDatabaseOwner(name, owner) => !c.deleting && name == c.spec.database && owner == c.spec.owner
    case AlterSchemaOwner(name, owner) => !c.deleting && name == c.spec.schema && owner == c.spec.owner
    case _ => false
  }

  /** The operator's finalizer is put at the end of a living object or taken off a dying one. */
  ghost predicate Finalizes(copy: DatabaseObject, c: DatabaseObject) {
    || (!c.deleting && c.spec.deleteFromCRD && FINALIZER !in c.finalizers
        && copy == c.(finalizers := c.finalizers + [FINALIZER]))
    || (c.deleting && FINALIZER in c.finalizers && copy == c.(finalizers := Without(c.finalizers, FINALIZER)))
  }

  /** Looking, except at the Database object. */
  predicate Peeks(act: Act) {
    act.Disturbed? || (IsRead(act) && !act.ObjectFetch?)
  }

  /** Since the last fetch the operator has only looked. */
  ghost predicate OnlyLooked(t: seq<Act>, i: nat)
    requires i <= |t|
  {
    forall k :: LastFetch(t, i) < k < i ==> Peeks(t[k])
  }

  /** Since the last fetch it has not tried to write finalizers. */
  ghost predicate Unwritten(t: seq<Act>, i: nat)
    requires i <= |t|
  {
    forall k :: LastFetch(t, i) < k < i ==> !t[k].ObjectUpdate?
  }

  /** Since the last fetch it has not talked to a server. */
  ghost predicate Unqueried(t: seq<Act>, i: nat)
    requires i <= |t|
  {
    forall k :: LastFetch(t, i) < k < i ==> !t[k].Sql? && !t[k].Catalog?
  }

  /** A lookup that finds no connected instance, or a read of the secret that brings no usable credentials. */
  ghost predicate Fails(w: World, act: Act, c: DatabaseObject) {
    match act
    case InstanceLookup(id, o) => o != Acked || !Reachable(w, c)
    case VaultGet(path, o) => o != Acked || !Answer(w, ReadAdmin(c.spec.id)).Credentials?
    case _ => true
  }

  predicate Reachable(w: World, c: DatabaseObject) {
    c.spec.id in w.instances && w.instances[c.spec.id]
  }

  /** The instance was looked for since the fetch, and never found connected. */
  ghost predicate NoInstance(h: seq<World>, t: seq<Act>, i: nat, c: DatabaseObject)
    requires i <= |t| < |h|
  {
    NoInstanceSince(h, t, LastFetch(t, i), i, c)
  }

  ghost predicate NoInstanceSince(h: seq<World>, t: seq<Act>, f: int, i: nat, c: DatabaseObject)
    requires -1 <= f && i <= |t| < |h|
  {
    && (exists k :: f < k < i && t[k].InstanceLookup? && t[k].id == c.spec.id)
    && (forall k :: f < k < i && t[k].InstanceLookup? ==> Fails(h[k], t[k], c))
  }

  /** The secret was read since the fetch, and every read failed. */
  ghost predicate NoCredentials(h: seq<World>, t: seq<Act>, i: nat, c: DatabaseObject)
    requires i <= |t| < |h|
  {
    NoCredentialsSince(h, t, LastFetch(t, i), i, c)
  }

  ghost predicate NoCredentialsSince(h: seq<World>, t: seq<Act>, f: int, i: nat, c: DatabaseObject)
    requires -1 <= f && i <= |t| < |h|
  {
    && (exists k :: f < k < i && t[k].VaultGet? && t[k].path == AdminPath(h[k].mount, c.spec.id))
    && (forall k :: f < k < i && t[k].VaultGet? ==> Fails(h[k], t[k], c))
  }

  /** The server confirmed the drop since the fetch, and the database is not there. */
  ghost predicate DropDone(h: seq<World>, t: seq<Act>, i: nat, c: DatabaseObject)
    requires i <= |t| < |h|
  {
    && c.spec.database !in ServerOf(h[i], c.spec.id).databases
    && exists k :: LastFetch(t, i) < k < i && DropConfirmed(h[k], t[k], c.spec.id, c.spec.database)
  }

  /**
   What allows the operator to take its finalizer off an object whose database is to be dropped: a confirmed drop, or
   one of the three reasons to give up, before anything was sent to the server.
   */
  ghost predicate Excused(h: seq<World>, t: seq<Act>, i: nat, cfg: Config, c: DatabaseObject)
    requires i <= |t| < |h|
  {
    || DropDone(h, t, i, c)
    || (OnlyLooked(t, i)
        && (!cfg.vault || cfg.vaultRetries < 1 || NoInstance(h, t, i, c) || NoCredentials(h, t, i, c)))
  }

  /** The database is there and has the owner asked for. */
  predicate Made(w: World, c: DatabaseObject) {
    && c.spec.database in ServerOf(w, c.spec.id).databases
    && ServerOf(w, c.spec.id).databases[c.spec.database].owner == c.spec.owner
  }

  /** A write of the object that went wrong. */
  ghost predicate UpdateFailed(w: World, act: Act) {
    act.ObjectUpdate? && (act.outcome != Acked || !Current(w, act.copy))
  }

  /** A living flagged object without the finalizer has had a failed attempt to add it. */
  ghost predicate Guarded(h: seq<World>, t: seq<Act>, i: nat, c: DatabaseObject)
    requires i <= |t| < |h|
  {
    !Doomed(c) && c.spec.deleteFromCRD && FINALIZER !in c.finalizers ==> FailedSince(h, t, LastFetch(t, i), i)
  }

  ghost predicate FailedSince(h: seq<World>, t: seq<Act>, f: int, i: nat)
    requires -1 <= f && i <= |t| < |h|
  {
    exists k :: f < k < i && UpdateFailed(h[k], t[k])
  }

  /** What one act of a reconcile is allowed to be, given everything before it. */
  ghost predicate Proper(h: seq<World>, t: seq<Act>, i: nat, cfg: Config)
    requires i < |t| < |h|
  {
    var seen := Seen(h, t, i);
    match t[i]
    case Sql(id, _, stmt, _) =>
      && seen.Some? && id == seen.value.spec.id && Issued(stmt, seen.value)
      && Guarded(h, t, i, seen.value) && (Doomed(seen.value) ==> Unwritten(t, i))
    case ObjectUpdate(copy, _) =>
      && seen.Some? && Finalizes(copy, seen.value)
      && (Doomed(seen.value) ==> Excused(h, t, i, cfg, seen.value))
    case ObjectStatus(copy, _) =>
      && seen.Some? && copy == seen.value.(created := copy.created)
      && (if seen.value.deleting then copy == seen.value
          else copy.created ==> Made(h[i], seen.value) || (seen.value.created && Unqueried(t, i)))
    case _ => t[i].Disturbed? || IsRead(t[i])
  }

  /** All acts of a window are proper. */
  ghost predicate ProperAll(h: seq<World>, t: seq<Act>, from: nat, upto: nat, cfg: Config)
    requires upto <= |t| < |h|
  {
    forall i :: from <= i < upto ==> Proper(h, t, i, cfg)
  }

  // ------------------------------------------------------------- windows and growth

  /** The fetched copy is still the last one fetched. */
  lemma {:induction false} FetchStays(t1: seq<Act>, t: seq<Act>, i: nat)
    requires i <= |t1| && t1 <= t
    ensures LastFetch(t, i) == LastFetch(t1, i)
    decreases i
  {
    if i > 0 && !t[i - 1].ObjectFetch? {
      FetchStays(t1, t, i - 1);
    }
  }

  lemma {:induction false} NoFetch(t: seq<Act>, i: nat, j: nat)
    requires i <= j <= |t| && forall k :: i <= k < j ==> !t[k].ObjectFetch?
    ensures LastFetch(t, j) == LastFetch(t, i)
    decreases j
  {
    if i < j {
      NoFetch(t, i, j - 1);
    }
  }

  /** What was so since the fetch is so in every longer trace. */
  lemma FactsGrow(h1: seq<World>, t1: seq<Act>, h: seq<World>, t: seq<Act>, i: nat, cfg: Config, c: DatabaseObject)
    requires i <= |t1| < |h1| && h1 <= h && t1 <= t && |t| < |h|
    ensures LastFetch(t, i) == LastFetch(t1, i) && Seen(h, t, i) == Seen(h1, t1, i)
    ensures OnlyLooked(t, i) == OnlyLooked(t1, i) && Unwritten(t, i) == Unwritten(t1, i)
    ensures Unqueried(t, i) == Unqueried(t1, i)
    ensures Guarded(h1, t1, i, c) ==> Guarded(h, t, i, c)
    ensures Excused(h1, t1, i, cfg, c) ==> Excused(h, t, i, cfg, c)
  {
    hide Fails, UpdateFailed, Doomed, LastFetch, Peeks, DropConfirmed;
    FetchStays(t1, t, i);
    assert forall k :: 0 <= k < i ==> t[k] == t1[k] && h[k] == h1[k];
    if Excused(h1, t1, i, cfg, c) {
      ExcuseGrows(h1, t1, h, t, i, c);
    }
  }

  lemma ExcuseGrows(h1: seq<World>, t1: seq<Act>, h: seq<World>, t: seq<Act>, i: nat, c: DatabaseObject)
    requires i <= |t1| < |h1| && h1 <= h && t1 <= t && |t| < |h| && LastFetch(t, i) == LastFetch(t1, i)
    ensures DropDone(h1, t1, i, c) ==> DropDone(h, t, i, c)
    ensures NoInstance(h1, t1, i, c) ==> NoInstance(h, t, i, c)
    ensures NoCredentials(h1, t1, i, c) ==> NoCredentials(h, t, i, c)
  {
    hide Fails, LastFetch, DropConfirmed;
    assert forall k :: 0 <= k < i ==> t[k] == t1[k] && h[k] == h1[k];
  }

  lemma ProperGrows(h1: seq<World>, t1: seq<Act>, h: seq<World>, t: seq<Act>, from: nat, cfg: Config)
    requires from <= |t1| < |h1| && h1 <= h && t1 <= t && |t| < |h|
    ensures ProperAll(h1, t1, from, |t1|, cfg) ==> ProperAll(h, t, from, |t1|, cfg)
  {
    if ProperAll(h1, t1, from, |t1|, cfg) {
      forall i | from <= i < |t1|
        ensures Proper(h, t, i, cfg)
      {
        hide Excused, Guarded, Issued, Finalizes, LastFetch, Doomed, Seen, OnlyLooked, Unwritten, Unqueried, Made;
        assert Proper(h1, t1, i, cfg);
        var seen := Seen(h1, t1, i);
        if seen.Some? {
          FactsGrow(h1, t1, h, t, i, cfg, seen.value);
        }
      }
    }
  }

  lemma ProperParts(h: seq<World>, t: seq<Act>, a: nat, b: nat, c: nat, cfg: Config)
    requires a <= b <= c <= |t| < |h|
    ensures ProperAll(h, t, a, b, cfg) && ProperAll(h, t, b, c, cfg) ==> ProperAll(h, t, a, c, cfg)
  {
  }

  lemma ReadsAreProper(h: seq<World>, t: seq<Act>, from: nat, upto: nat, cfg: Config)
    requires from <= upto <= |t| < |h| && forall i :: from <= i < upto ==> t[i].Disturbed? || IsRead(t[i])
    ensures ProperAll(h, t, from, upto, cfg)
  {
    hide Seen, Issued, Guarded, Finalizes, Excused, Unwritten, Unqueried;
  }

  lemma NothingDone(h: seq<World>, t: seq<Act>, cfg: Config)
    requires |t| < |h|
    ensures ProperAll(h, t, |t|, |t|, cfg)
  {
  }

  /** A proper window up to a point, and a proper one from there. */
  lemma JoinProper(h1: seq<World>, t1: seq<Act>, h: seq<World>, t: seq<Act>, from: nat, cfg: Config)
    requires from <= |t1| && |h1| == |t1| + 1 && h1 <= h && t1 <= t && |h| == |t| + 1
    requires ProperAll(h1, t1, from, |t1|, cfg) && ProperAll(h, t, |t1|, |t|, cfg)
    ensures ProperAll(h, t, from, |t|, cfg)
  {
    hide ProperAll;
    ProperGrows(h1, t1, h, t, from, cfg);
    ProperParts(h, t, from, |t1|, |t|, cfg);
  }

  /** Reads and other people's acts leave the fetched copy the fetched copy. */
  lemma StillSeen(h1: seq<World>, t1: seq<Act>, h: seq<World>, t: seq<Act>, cfg: Config, c: DatabaseObject)
    requires |h1| == |t1| + 1 && h1 <= h && t1 <= t && |h| == |t| + 1
    requires forall i :: |t1| <= i < |t| ==> Peeks(t[i])
    ensures Seen(h, t, |t|) == Seen(h1, t1, |t1|) && LastFetch(t, |t|) == LastFetch(t1, |t1|)
    ensures ProperAll(h, t, |t1|, |t|, cfg)
    ensures Guarded(h1, t1, |t1|, c) ==> Guarded(h, t, |t|, c)
    ensures Unqueried(t1, |t1|) && (forall i :: |t1| <= i < |t| ==> !t[i].Catalog?) ==> Unqueried(t, |t|)
  {
    hide ProperAll, LastFetch, Guarded, Unqueried;
    FetchStays(t1, t, |t1|);
    NoFetch(t, |t1|, |t|);
    ReadsAreProper(h, t, |t1|, |t|, cfg);
    GuardStays(h1, t1, h, t, c);
    StillUnqueried(t1, t);
  }

  lemma GuardStays(h1: seq<World>, t1: seq<Act>, h: seq<World>, t: seq<Act>, c: DatabaseObject)
    requires |t1| < |h1| && h1 <= h && t1 <= t && |t| < |h| && LastFetch(t, |t|) == LastFetch(t1, |t1|)
    ensures Guarded(h1, t1, |t1|, c) ==> Guarded(h, t, |t|, c)
  {
    hide UpdateFailed, Doomed, LastFetch, FailedSince;
    FailedStays(h1, t1, h, t, LastFetch(t, |t|));
  }

  lemma FailedStays(h1: seq<World>, t1: seq<Act>, h: seq<World>, t: seq<Act>, f: int)
    requires -1 <= f && |t1| < |h1| && h1 <= h && t1 <= t && |t| < |h|
    ensures FailedSince(h1, t1, f, |t1|) ==> FailedSince(h, t, f, |t|)
  {
    hide UpdateFailed;
    if k :| f < k < |t1| && UpdateFailed(h1[k], t1[k]) {
      assert h[k] == h1[k] && t[k] == t1[k];
    }
  }

  lemma StillUnqueried(t1: seq<Act>, t: seq<Act>)
    requires t1 <= t && LastFetch(t, |t|) == LastFetch(t1, |t1|)
    requires forall i :: |t1| <= i < |t| ==> Peeks(t[i])
    ensures Unqueried(t1, |t1|) && (forall i :: |t1| <= i < |t| ==> !t[i].Catalog?) ==> Unqueried(t, |t|)
  {
    hide LastFetch;
  }

  // ------------------------------------------------------------------- operations

  /** The operation fits the copy. */
  ghost predicate Fits(op: PgOp, c: DatabaseObject) {
    || (op == DeleteDb(c.spec.database) && Doomed(c))
    || (!c.deleting && op == SyncDatabase(c.spec.database, c.spec.owner, SchemaName(c.spec), c.spec.template))
  }

  function SchemaName(spec: DatabaseSpec): string {
    if spec.schema == "" then "public" else spec.schema
  }

  lemma OpActIsIssued(w: World, act: Act, c: DatabaseObject, admin: Login, op: PgOp)
    requires OpAct(w, act, c.spec.id, admin, op) && Fits(op, c)
    ensures act.Disturbed? || act.Catalog? || (act.Sql? && act.id == c.spec.id && Issued(act.stmt, c))
  {
  }

  lemma OpsAreProper(h: seq<World>, t: seq<Act>, from: nat, cfg: Config, c: DatabaseObject, admin: Login, op: PgOp)
    requires from <= |t| < |h| && Seen(h, t, from) == Some(c) && Fits(op, c) && Guarded(h, t, from, c)
    requires Doomed(c) ==> Unwritten(t, from)
    requires forall i :: from <= i < |t| ==> OpAct(h[i], t[i], c.spec.id, admin, op)
    ensures ProperAll(h, t, from, |t|, cfg) && Seen(h, t, |t|) == Some(c) && LastFetch(t, |t|) == LastFetch(t, from)
  {
    hide OpAct, Issued, Fits, UpdateFailed, Doomed, LastFetch, Excused;
    forall i | from <= i < |t|
      ensures t[i].Disturbed? || t[i].Catalog? || (t[i].Sql? && t[i].id == c.spec.id && Issued(t[i].stmt, c))
    {
      OpActIsIssued(h[i], t[i], c, admin, op);
    }
    NoFetch(t, from, |t|);
    forall i | from <= i < |t|
      ensures Proper(h, t, i, cfg)
    {
      NoFetch(t, from, i);
    }
  }

  // ------------------------------------------------------------------- deletion

  /** An excuse, once there, stays: others do not create databases. */
  lemma UpdateIsProper(h: seq<World>, t: seq<Act>, n: nat, cfg: Config, c: DatabaseObject)
    requires |t| == n + 2 && |h| == |t| + 1 && Seen(h, t, n) == Some(c)
    requires t[n].Disturbed? && h[n + 1] == Disturb(h[n], t[n].who)
    requires t[n + 1].ObjectUpdate? && Finalizes(t[n + 1].copy, c)
    requires Doomed(c) ==> Excused(h, t, n, cfg, c)
    ensures ProperAll(h, t, n, |t|, cfg) && Seen(h, t, |t|) == Some(c) && LastFetch(t, |t|) == LastFetch(t, n)
  {
    hide Disturb, Finalizes, Doomed, Fails, UpdateFailed, Issued, LastFetch, DropConfirmed;
    OthersKeepCatalogs(h[n], t[n].who, c.spec.id);
    NoFetch(t, n, n + 1);
    NoFetch(t, n, n + 2);
    if Doomed(c) {
      assert Excused(h, t, n + 1, cfg, c);
    }
  }

  method RemoveDBFinalizer(r: Remote, cfg: Config, c: DatabaseObject) returns (ok: bool)
    requires r.Valid() && Seen(r.history, r.trace, |r.trace|) == Some(c)
    requires c.deleting && FINALIZER in c.finalizers
    requires Doomed(c) ==> Excused(r.history, r.trace, |r.trace|, cfg, c)
    modifies r
    ensures r.Grew() && r.calls == old(r.calls) + 1
    ensures |r.trace| == |old(r.trace)| + 2 && r.trace[|r.trace| - 2].Disturbed? && r.trace[|r.trace| - 1].ObjectUpdate?
    ensures ProperAll(r.history, r.trace, |old(r.trace)|, |r.trace|, cfg)
    ensures r.Calm(old(r.calls)) && Current(old(r.world), c) ==>
              ok && r.world == Finalized(old(r.world), c)
  {
    hide Perform, Disturb, Replayed, Excused, ProperAll, LastFetch, Doomed, Seen;
    var finalizers := RemoveString(c.finalizers, FINALIZER);
    ghost var h, t := r.history, r.trace;
    UpdateEffect(r.Met(), c.(finalizers := finalizers), r.Fate(r.calls));
    PerformDisturbs(r.world, r.OthersAt(r.calls));
    ok := r.UpdateObject(c.(finalizers := finalizers));
    FactsGrow(h, t, r.history, r.trace, |t|, cfg, c);
    UpdateIsProper(r.history, r.trace, |t|, cfg, c);
  }

  /** The object without the operator's finalizer; it is gone if that was the last one. */
  function Finalized(w: World, c: DatabaseObject): World {
    if w.database.None? then w
    else Store(w, w.database.value.(finalizers := Without(c.finalizers, FINALIZER), spec := c.spec))
  }

  /** The object with this `created`. */
  function Saved(w: World, created: bool): World {
    if w.database.None? then w else Store(w, w.database.value.(created := created))
  }

  lemma UpdateEffect(w: World, copy: DatabaseObject, o: Outcome)
    ensures Perform(w, ObjectUpdate(copy, o))
            == if o == Outcome.Dropped || !Current(w, copy) then w
               else Store(w, w.database.value.(finalizers := copy.finalizers, spec := copy.spec))
  {
  }

  lemma StatusEffect(w: World, copy: DatabaseObject, o: Outcome)
    ensures Perform(w, ObjectStatus(copy, o))
            == if o == Outcome.Dropped || !Current(w, copy) then w else Saved(w, copy.created)
  {
  }

  lemma StatusIsProper(h1: seq<World>, t1: seq<Act>, h: seq<World>, t: seq<Act>, cfg: Config, c: DatabaseObject)
    requires |h1| == |t1| + 1 && h1 <= h && t1 <= t && |h| == |t| + 1 && Seen(h1, t1, |t1|) == Some(c)
    requires |t| == |t1| + 2 && t[|t1|].Disturbed? && h[|t1| + 1] == Disturb(h[|t1|], t[|t1|].who)
    requires t[|t1| + 1].ObjectStatus? && t[|t1| + 1].copy == c.(created := t[|t1| + 1].copy.created)
    requires if c.deleting then t[|t1| + 1].copy == c
             else t[|t1| + 1].copy.created ==> Made(h[|t1|], c) || (c.created && Unqueried(t1, |t1|))
    ensures ProperAll(h, t, |t1|, |t|, cfg) && Seen(h, t, |t|) == Some(c)
  {
    hide Disturb, Issued, Finalizes, Excused, UpdateFailed, LastFetch, Guarded;
    OthersKeepCatalogs(h[|t1|], t[|t1|].who, c.spec.id);
    FactsGrow(h1, t1, h, t, |t1|, cfg, c);
    NoFetch(t, |t1|, |t1| + 1);
    NoFetch(t, |t1|, |t1| + 2);
  }

  /** Nothing since the fetch but this window. */
  lemma FreshWindow(t1: seq<Act>, t: seq<Act>)
    requires t1 != [] && t1[|t1| - 1].ObjectFetch? && t1 <= t
    requires forall i :: |t1| <= i < |t| ==> !t[i].ObjectFetch?
    ensures LastFetch(t, |t|) == |t1| - 1
    ensures (forall i :: |t1| <= i < |t| ==> Peeks(t[i])) ==> OnlyLooked(t, |t|)
  {
    NoFetch(t, |t1|, |t|);
  }

  /** The instance, then the credentials; None when there is a reason to give up. */
  method FindAdmin(r: Remote, cfg: Config, c: DatabaseObject) returns (admin: Option<Login>)
    requires r.Valid() && r.trace != [] && r.trace[|r.trace| - 1].ObjectFetch?
    modifies r
    ensures r.Grew()
    ensures forall i :: |old(r.trace)| <= i < |r.trace| ==> Peeks(r.trace[i])
    ensures admin.None? ==> Excused(r.history, r.trace, |r.trace|, cfg, c)
    ensures r.Calm(old(r.calls)) ==> r.world == old(r.world)
    ensures r.Calm(old(r.calls)) && cfg.vaultRetries >= 1 ==> admin == Administrator(r.world, cfg, c)
  {
    hide Perform, Disturb, Replayed, Answer, LastFetch, Fails, Excused;
    ghost var t := r.trace;
    var connected := r.LookupInstance(c.spec.id);
    if connected != Some(true) {
      FreshWindow(t, r.trace);
      NoInstanceExcuses(r.history, r.trace, |t|, cfg, c);
      return None;
    }
    if !cfg.vault {
      FreshWindow(t, r.trace);
      NoVaultExcuses(r.history, r.trace, cfg, c);
      return None;
    }
    ghost var n := |r.trace|;
    admin := ReadAdminCredentials(r, cfg, c);
    FreshWindow(t, r.trace);
    if admin.None? {
      if cfg.vaultRetries < 1 {
        NoVaultExcuses(r.history, r.trace, cfg, c);
      } else {
        NoCredentialsExcuse(r.history, r.trace, |t|, n, cfg, c);
      }
    }
  }

  lemma NoInstanceExcuses(h: seq<World>, t: seq<Act>, n: nat, cfg: Config, c: DatabaseObject)
    requires |t| == n + 2 && |h| == |t| + 1 && LastFetch(t, |t|) == n - 1 && OnlyLooked(t, |t|)
    requires t[n].Disturbed? && t[n + 1].InstanceLookup? && t[n + 1].id == c.spec.id
    requires t[n + 1].outcome != Acked || !Reachable(h[n + 1], c)
    ensures Excused(h, t, |t|, cfg, c)
  {
    hide DropDone, NoCredentials, LastFetch;
    assert LastFetch(t, |t|) < n + 1 < |t| && t[n + 1].InstanceLookup?;
  }

  lemma NoVaultExcuses(h: seq<World>, t: seq<Act>, cfg: Config, c: DatabaseObject)
    requires |t| < |h| && OnlyLooked(t, |t|) && (!cfg.vault || cfg.vaultRetries < 1)
    ensures Excused(h, t, |t|, cfg, c)
  {
  }

  lemma NoCredentialsExcuse(h: seq<World>, t: seq<Act>, n: nat, m: nat, cfg: Config, c: DatabaseObject)
    requires m == n + 2 < |t| && |h| == |t| + 1 && LastFetch(t, |t|) == n - 1 && OnlyLooked(t, |t|)
    requires t[n].Disturbed? && t[n + 1].InstanceLookup?
    requires forall i :: m <= i < |t| ==> Fails(h[i], t[i], c)
    requires t[|t| - 1].VaultGet? && t[|t| - 1].path == AdminPath(h[|t| - 1].mount, c.spec.id)
    ensures Excused(h, t, |t|, cfg, c)
  {
    hide DropDone, NoInstance, LastFetch, Fails, OnlyLooked, NoCredentialsSince;
    AllReadsFailed(h, t, n, m, c);
  }

  lemma AllReadsFailed(h: seq<World>, t: seq<Act>, n: nat, m: nat, c: DatabaseObject)
    requires m == n + 2 < |t| && |h| == |t| + 1
    requires t[n].Disturbed? && t[n + 1].InstanceLookup?
    requires forall i :: m <= i < |t| ==> Fails(h[i], t[i], c)
    requires t[|t| - 1].VaultGet? && t[|t| - 1].path == AdminPath(h[|t| - 1].mount, c.spec.id)
    ensures NoCredentialsSince(h, t, n - 1, |t|, c)
  {
    hide Fails;
    var k := |t| - 1;
    assert n - 1 < k < |t| && t[k].VaultGet?;
    assert forall k :: n - 1 < k < |t| && t[k].VaultGet? ==> m <= k;
  }

  /** The secret, under retry; None exactly if no read brought usable credentials. */
  method ReadAdminCredentials(r: Remote, cfg: Config, c: DatabaseObject) returns (admin: Option<Login>)
    requires r.Valid()
    modifies r
    ensures r.Grew()
    ensures forall i :: |old(r.trace)| <= i < |r.trace| ==> Peeks(r.trace[i])
    ensures admin.None? <==> forall i :: |old(r.trace)| <= i < |r.trace| ==> Fails(r.history[i], r.trace[i], c)
    ensures cfg.vaultRetries >= 1 ==>
              && |r.trace| > |old(r.trace)| && r.trace[|r.trace| - 1].VaultGet?
              && r.trace[|r.trace| - 1].path == AdminPath(r.history[|r.trace| - 1].mount, c.spec.id)
    ensures r.Calm(old(r.calls)) ==> r.world == old(r.world)
    ensures r.Calm(old(r.calls)) && cfg.vaultRetries >= 1 ==>
              var found := Answer(r.world, ReadAdmin(c.spec.id));
              admin == if found.Credentials? then Some(Login(found.login, found.password)) else None
  {
    hide Perform, Disturb, Replayed, Answer;
    ghost var n := |r.trace|;
    var reply := ReadWithRetry(r, ReadAdmin(c.spec.id), cfg.vaultRetries, cfg.vaultBase);
    admin := if reply.Credentials? then Some(Login(reply.login, reply.password)) else None;
    if |r.trace| > n && r.trace[|r.trace| - 1].VaultGet? {
      LastReadAnswers(r.history, r.trace);
    }
    if reply.Credentials? {
      assert !Fails(r.history[|r.trace| - 1], r.trace[|r.trace| - 1], c);
    }
  }

  /** The credentials for the drop, if the instance is connected and Vault has them. */
  function Administrator(w: World, cfg: Config, c: DatabaseObject): Option<Login> {
    var found := Answer(w, ReadAdmin(c.spec.id));
    if Reachable(w, c) && cfg.vault && found.Credentials? then Some(Login(found.login, found.password)) else None
  }

  /** Credentials for the drop, or None after giving up and taking the finalizer off. */
  method ResolveDeletionConnection(r: Remote, cfg: Config, c: DatabaseObject) returns (admin: Option<Login>)
    requires r.Valid() && Doomed(c) && Seen(r.history, r.trace, |r.trace|) == Some(c)
    requires r.trace != [] && r.trace[|r.trace| - 1].ObjectFetch?
    modifies r
    ensures r.Grew()
    ensures ProperAll(r.history, r.trace, |old(r.trace)|, |r.trace|, cfg)
    ensures admin.Some? ==> Seen(r.history, r.trace, |r.trace|) == Some(c) && OnlyLooked(r.trace, |r.trace|)
    ensures r.Calm(old(r.calls)) && cfg.vaultRetries >= 1 && Current(old(r.world), c) ==>
              && admin == Administrator(old(r.world), cfg, c)
              && r.world == if admin.Some? then old(r.world) else Finalized(old(r.world), c)
  {
    hide Perform, Disturb, Replayed, ProperAll, Answer, LastFetch, Excused, Seen, Finalized, Administrator, OnlyLooked;
    ghost var h, t := r.history, r.trace;
    admin := FindAdmin(r, cfg, c);
    StillSeen(h, t, r.history, r.trace, cfg, c);
    FreshWindow(t, r.trace);
    ghost var h1, t1 := r.history, r.trace;
    if admin.None? {
      var ok := RemoveDBFinalizer(r, cfg, c);
    } else {
      NothingDone(r.history, r.trace, cfg);
    }
    JoinProper(h1, t1, r.history, r.trace, |t|, cfg);
  }

  /** DROP under retry, then the finalizer; a failed drop keeps the object and saves its status. */
  method DropAndFinalize(r: Remote, cfg: Config, c: DatabaseObject, admin: Login) returns (dropped: bool)
    requires r.Valid() && Doomed(c) && Seen(r.history, r.trace, |r.trace|) == Some(c) && OnlyLooked(r.trace, |r.trace|)
    modifies r
    ensures r.Grew()
    ensures ProperAll(r.history, r.trace, |old(r.trace)|, |r.trace|, cfg)
    // The finalizer is touched exactly if the drop succeeded, and then the server has confirmed that just before.
    ensures dropped <==> exists i :: |old(r.trace)| <= i < |r.trace| && r.trace[i].ObjectUpdate?
    ensures forall i :: |old(r.trace)| <= i < |r.trace| && r.trace[i].ObjectUpdate? ==>
              i >= |old(r.trace)| + 2 && DropConfirmed(r.history[i - 2], r.trace[i - 2], c.spec.id, c.spec.database)
    ensures r.Calm(old(r.calls)) && cfg.pgRetries >= 1 && Current(old(r.world), c) ==>
              && dropped == Feasible(old(r.world), c.spec.id, admin, DeleteDb(c.spec.database))
              && r.world == if dropped then Finalized(WithoutItsDatabase(old(r.world), c), c)
                            else Saved(old(r.world), c.created)
  {
    hide Perform, Disturb, Replayed, ProperAll, LastFetch, Excused, Seen, Finalized, Feasible, OpAct, Proper,
         DropConfirmed, OnlyLooked;
    ghost var h, t := r.history, r.trace;
    var op := DeleteDb(c.spec.database);
    dropped := ExecuteOperationWithRetry(r, c.spec.id, admin, op, cfg.pgRetries, cfg.pgBase);
    ghost var h1, t1 := r.history, r.trace;
    DropWindow(h, t, h1, t1, cfg, c, admin, dropped);
    if dropped {
      var ok := RemoveDBFinalizer(r, cfg, c);
      assert r.trace[|t1| + 1].ObjectUpdate?;
    } else {
      StatusEffect(r.Met(), c, r.Fate(r.calls));
      PerformDisturbs(r.world, r.OthersAt(r.calls));
      var saved := r.UpdateObjectStatus(c);
      StatusIsProper(h1, t1, r.history, r.trace, cfg, c);
    }
    JoinProper(h1, t1, r.history, r.trace, |t|, cfg);
  }

  /** The window of a drop is proper, and a confirmed one excuses taking the finalizer off. */
  lemma DropWindow(h: seq<World>, t: seq<Act>, h1: seq<World>, t1: seq<Act>, cfg: Config, c: DatabaseObject,
                   admin: Login, dropped: bool)
    requires |h| == |t| + 1 && h <= h1 && t <= t1 && |h1| == |t1| + 1
    requires Doomed(c) && Seen(h, t, |t|) == Some(c) && OnlyLooked(t, |t|)
    requires forall i :: |t| <= i < |t1| ==> OpAct(h1[i], t1[i], c.spec.id, admin, DeleteDb(c.spec.database))
    requires dropped ==>
               |t1| > |t| && DropConfirmed(h1[|t1| - 1], t1[|t1| - 1], c.spec.id, c.spec.database)
               && c.spec.database !in ServerOf(h1[|t1|], c.spec.id).databases
    ensures ProperAll(h1, t1, |t|, |t1|, cfg) && Seen(h1, t1, |t1|) == Some(c)
    ensures forall i :: |t| <= i < |t1| ==> !t1[i].ObjectUpdate?
    ensures dropped ==> Excused(h1, t1, |t1|, cfg, c)
  {
    hide OpAct, LastFetch, DropConfirmed, ProperAll, Guarded;
    FactsGrow(h, t, h1, t1, |t|, cfg, c);
    forall i | |t| <= i < |t1|
      ensures !t1[i].ObjectUpdate?
    {
      OpActIsIssued(h1[i], t1[i], c, admin, DeleteDb(c.spec.database));
    }
    DoomedIsGuarded(h1, t1, |t|, c);
    OpsAreProper(h1, t1, |t|, cfg, c, admin, DeleteDb(c.spec.database));
  }

  lemma DoomedIsGuarded(h: seq<World>, t: seq<Act>, i: nat, c: DatabaseObject)
    requires i <= |t| < |h| && Doomed(c)
    ensures Guarded(h, t, i, c)
  {
  }

  /** The server without the database. */
  function WithoutItsDatabase(w: World, c: DatabaseObject): World {
    if c.spec.id in w.servers then SetServer(w, c.spec.id, WithoutDatabase(w.servers[c.spec.id], c.spec.database))
    else w
  }

  /** `handleDeletion`, right after the fetch. */
  method HandleDeletion(r: Remote, cfg: Config, c: DatabaseObject)
    requires r.Valid() && c.deleting && Seen(r.history, r.trace, |r.trace|) == Some(c)
    requires r.trace != [] && r.trace[|r.trace| - 1].ObjectFetch?
    modifies r
    ensures r.Grew()
    ensures ProperAll(r.history, r.trace, |old(r.trace)|, |r.trace|, cfg)
    ensures r.Calm(old(r.calls)) && Current(old(r.world), c) && cfg.vaultRetries >= 1 && cfg.pgRetries >= 1 ==>
              r.world == DeletionDone(old(r.world), cfg, c)
  {
    hide Perform, Disturb, Replayed, ProperAll, Seen, Finalized, Administrator, Excused, Feasible, OnlyLooked;
    var found := ContainsString(c.finalizers, FINALIZER);
    if !c.spec.deleteFromCRD {
      if found {
        var ok := RemoveDBFinalizer(r, cfg, c);
      } else {
        NothingDone(r.history, r.trace, cfg);
      }
      return;
    }
    if !found {
      NothingDone(r.history, r.trace, cfg);
      return;
    }
    ghost var t := r.trace;
    var admin := ResolveDeletionConnection(r, cfg, c);
    ghost var h1, t1 := r.history, r.trace;
    if admin.Some? {
      var dropped := DropAndFinalize(r, cfg, c, admin.value);
    } else {
      NothingDone(r.history, r.trace, cfg);
    }
    JoinProper(h1, t1, r.history, r.trace, |t|, cfg);
  }

  /** What a reconcile without faults makes of an object with a deletion timestamp. */
  ghost function DeletionDone(w: World, cfg: Config, c: DatabaseObject): World {
    if FINALIZER !in c.finalizers then w
    else if !c.spec.deleteFromCRD then Finalized(w, c)
    else
      match Administrator(w, cfg, c)
      case None => Finalized(w, c)
      case Some(admin) =>
        if Feasible(w, c.spec.id, admin, DeleteDb(c.spec.database)) then Finalized(WithoutItsDatabase(w, c), c)
        else Saved(w, c.created)
  }

  // ---------------------------------------------------------- creation and updates

  /** `ensureFinalizer`, right after the fetch. A failed update does not stop the reconcile. */
  method EnsureFinalizer(r: Remote, cfg: Config, c: DatabaseObject) returns (done: bool)
    requires r.Valid() && !c.deleting && Seen(r.history, r.trace, |r.trace|) == Some(c)
    requires r.trace != [] && r.trace[|r.trace| - 1].ObjectFetch?
    modifies r
    ensures r.Grew()
    ensures ProperAll(r.history, r.trace, |old(r.trace)|, |r.trace|, cfg)
    ensures !done ==> Seen(r.history, r.trace, |r.trace|) == Some(c) && Guarded(r.history, r.trace, |r.trace|, c)
    ensures !done ==> Unqueried(r.trace, |r.trace|)
    ensures r.Calm(old(r.calls)) && Current(old(r.world), c) ==>
              && done == (c.spec.deleteFromCRD && FINALIZER !in c.finalizers)
              && r.world == if done then WithFinalizer(old(r.world), c) else old(r.world)
  {
    hide Perform, Disturb, Replayed, ProperAll, LastFetch, Excused;
    done := false;
    ghost var h, t := r.history, r.trace;
    FreshWindow(t, t);
    var found := ContainsString(c.finalizers, FINALIZER);
    if !c.spec.deleteFromCRD || found {
      NothingDone(r.history, r.trace, cfg);
      return;
    }
    var copy := c.(finalizers := c.finalizers + [FINALIZER]);
    UpdateEffect(r.Met(), copy, r.Fate(r.calls));
    PerformDisturbs(r.world, r.OthersAt(r.calls));
    done := r.UpdateObject(copy);
    FactsGrow(h, t, r.history, r.trace, |t|, cfg, c);
    UpdateIsProper(r.history, r.trace, |t|, cfg, c);
    FreshWindow(t, r.trace);
    assert !done ==> UpdateFailed(r.history[|t| + 1], r.trace[|t| + 1]);
  }

  function WithFinalizer(w: World, c: DatabaseObject): World {
    if w.database.None? then w
    else Store(w, w.database.value.(finalizers := c.finalizers + [FINALIZER], spec := c.spec))
  }

  /** `syncDatabase`: the operation under retry, then the status. */
  method SyncDatabaseObject(r: Remote, cfg: Config, c: DatabaseObject, admin: Login) returns (made: bool)
    requires r.Valid() && !c.deleting && Seen(r.history, r.trace, |r.trace|) == Some(c)
    requires Guarded(r.history, r.trace, |r.trace|, c)
    modifies r
    ensures r.Grew()
    ensures ProperAll(r.history, r.trace, |old(r.trace)|, |r.trace|, cfg)
    // What is saved is whether the operation succeeded, and it is only saved as true with the database there.
    ensures forall i :: |old(r.trace)| <= i < |r.trace| && r.trace[i].ObjectStatus? ==>
              r.trace[i].copy == c.(created := made) && (made ==> Made(r.history[i], c))
    ensures r.Calm(old(r.calls)) && cfg.pgRetries >= 1 && Current(old(r.world), c) ==>
              && made == Feasible(old(r.world), c.spec.id, admin, SyncOf(c))
              && r.world == Saved(if made then WithItsDatabase(old(r.world), c) else old(r.world), made)
  {
    hide Perform, Disturb, Replayed, ProperAll, LastFetch, Excused, Seen, OpAct, Proper, Guarded, CanConnect;
    ghost var h, t := r.history, r.trace;
    made := ExecuteOperationWithRetry(r, c.spec.id, admin, SyncOf(c), cfg.pgRetries, cfg.pgBase);
    ghost var h1, t1 := r.history, r.trace;
    SyncWindow(h, t, h1, t1, cfg, c, admin);
    OthersKeepCatalogs(r.world, r.OthersAt(r.calls), c.spec.id);
    PerformDisturbs(r.world, r.OthersAt(r.calls));
    StatusEffect(r.Met(), c.(created := made), r.Fate(r.calls));
    var saved := r.UpdateObjectStatus(c.(created := made));
    StatusIsProper(h1, t1, r.history, r.trace, cfg, c);
    JoinProper(h1, t1, r.history, r.trace, |t|, cfg);
  }

  lemma SyncWindow(h: seq<World>, t: seq<Act>, h1: seq<World>, t1: seq<Act>, cfg: Config, c: DatabaseObject,
                   admin: Login)
    requires |h| == |t| + 1 && h <= h1 && t <= t1 && |h1| == |t1| + 1
    requires !c.deleting && Seen(h, t, |t|) == Some(c) && Guarded(h, t, |t|, c)
    requires forall i :: |t| <= i < |t1| ==> OpAct(h1[i], t1[i], c.spec.id, admin, SyncOf(c))
    ensures ProperAll(h1, t1, |t|, |t1|, cfg) && Seen(h1, t1, |t1|) == Some(c)
    ensures forall i :: |t| <= i < |t1| ==> !t1[i].ObjectStatus?
  {
    hide OpAct, LastFetch, ProperAll, Guarded;
    FactsGrow(h, t, h1, t1, |t|, cfg, c);
    forall i | |t| <= i < |t1|
      ensures !t1[i].ObjectStatus?
    {
      OpActIsIssued(h1[i], t1[i], c, admin, SyncOf(c));
    }
    OpsAreProper(h1, t1, |t|, cfg, c, admin, SyncOf(c));
  }

  function SyncOf(c: DatabaseObject): PgOp {
    SyncDatabase(c.spec.database, c.spec.owner, SchemaName(c.spec), c.spec.template)
  }

  /** The world in which the server has the database as the object asks for. */
  function WithItsDatabase(w: World, c: DatabaseObject): World {
    var s := ServerOf(w, c.spec.id);
    if c.spec.id in w.servers && CanSyncDatabase(s, c.spec.database, c.spec.owner, c.spec.template)
      then WithDatabase(w, c.spec.id, c.spec.database,
                        DatabaseAfter(s, c.spec.database, c.spec.owner, SchemaName(c.spec), c.spec.template))
    else w
  }

  /** The rest of a reconcile of a living object. */
  method CreateOrUpdate(r: Remote, cfg: Config, c: DatabaseObject)
    requires r.Valid() && !c.deleting && Seen(r.history, r.trace, |r.trace|) == Some(c)
    requires Guarded(r.history, r.trace, |r.trace|, c) && Unqueried(r.trace, |r.trace|)
    modifies r
    ensures r.Grew()
    ensures ProperAll(r.history, r.trace, |old(r.trace)|, |r.trace|, cfg)
    ensures r.Calm(old(r.calls)) && Current(old(r.world), c) && cfg.vaultRetries >= 1 && cfg.pgRetries >= 1 ==>
              r.world == CreationDone(old(r.world), cfg, c)
  {
    hide Perform, Disturb, Replayed, ProperAll, LastFetch, Seen, Guarded, Feasible, Made, Unqueried, Answer,
         WithItsDatabase;
    ghost var h, t := r.history, r.trace;
    var connected := r.LookupInstance(c.spec.id);
    StillSeen(h, t, r.history, r.trace, cfg, c);
    if connected != Some(true) {
      ghost var h1, t1 := r.history, r.trace;
      PerformDisturbs(r.world, r.OthersAt(r.calls));
      StatusEffect(r.Met(), c, r.Fate(r.calls));
      var saved := r.UpdateObjectStatus(c);
      StatusIsProper(h1, t1, r.history, r.trace, cfg, c);
      JoinProper(h1, t1, r.history, r.trace, |t|, cfg);
      return;
    }
    var admin := ResolveAdminCredentials(r, cfg, c.spec.id);
    StillSeen(h, t, r.history, r.trace, cfg, c);
    ghost var h1, t1 := r.history, r.trace;
    var made := SyncDatabaseObject(r, cfg, c, admin);
    JoinProper(h1, t1, r.history, r.trace, |t|, cfg);
  }

  /** What a reconcile without faults makes of a living object that needs no finalizer. */
  ghost function CreationDone(w: World, cfg: Config, c: DatabaseObject): World {
    if !Reachable(w, c) then Saved(w, c.created)
    else if Feasible(w, c.spec.id, AdminOf(w, cfg, c.spec.id), SyncOf(c)) then Saved(WithItsDatabase(w, c), true)
    else Saved(w, false)
  }

  // ------------------------------------------------------------------ reconcile

  lemma JustFetched(h: seq<World>, t: seq<Act>, c: DatabaseObject)
    requires |h| == |t| + 1 && t != [] && t[|t| - 1] == ObjectFetch(Acked) && h[|t| - 1].database == Some(c)
    ensures Seen(h, t, |t|) == Some(c)
  {
  }

  /** From the fetched copy on. */
  method ReconcileCopy(r: Remote, cfg: Config, c: DatabaseObject)
    requires r.Valid() && Seen(r.history, r.trace, |r.trace|) == Some(c)
    requires r.trace != [] && r.trace[|r.trace| - 1].ObjectFetch?
    modifies r
    ensures r.Grew()
    ensures ProperAll(r.history, r.trace, |old(r.trace)|, |r.trace|, cfg)
    ensures r.Calm(old(r.calls)) && Current(old(r.world), c) && cfg.vaultRetries >= 1 && cfg.pgRetries >= 1 ==>
              r.world == OneStep(old(r.world), cfg, c)
  {
    hide Perform, Disturb, Replayed, ProperAll, Seen, Guarded, DeletionDone, CreationDone, WithFinalizer, Unqueried;
    if c.deleting {
      HandleDeletion(r, cfg, c);
      return;
    }
    ghost var t := r.trace;
    var done := EnsureFinalizer(r, cfg, c);
    ghost var h1, t1 := r.history, r.trace;
    if !done {
      CreateOrUpdate(r, cfg, c);
    } else {
      NothingDone(r.history, r.trace, cfg);
    }
    JoinProper(h1, t1, r.history, r.trace, |t|, cfg);
  }

  /** One step without faults, exactly: delete and let go, or guard with the finalizer, or create. */
  ghost function OneStep(w: World, cfg: Config, c: DatabaseObject): World {
    if c.deleting then DeletionDone(w, cfg, c)
    else if c.spec.deleteFromCRD && FINALIZER !in c.finalizers then WithFinalizer(w, c)
    else CreationDone(w, cfg, c)
  }

  method ReconcileDatabase(r: Remote, cfg: Config)
    requires r.Valid()
    modifies r
    ensures r.Grew()
    // Under any faults and edits, every act is proper given what came before it.
    ensures ProperAll(r.history, r.trace, |old(r.trace)|, |r.trace|, cfg)
    ensures r.Calm(old(r.calls)) && cfg.vaultRetries >= 1 && cfg.pgRetries >= 1 ==>
              r.world == if old(r.world).database.None? then old(r.world)
                         else OneStep(old(r.world), cfg, old(r.world).database.value)
  {
    hide Perform, Disturb, Replayed, ProperAll, Seen, OneStep;
    ghost var t := r.trace;
    var fetched := r.FetchObject();
    ghost var h1, t1 := r.history, r.trace;
    ReadsAreProper(h1, t1, |t|, |t1|, cfg);
    if fetched.Some? {
      JustFetched(h1, t1, fetched.value);
      ReconcileCopy(r, cfg, fetched.value);
    } else {
      NothingDone(r.history, r.trace, cfg);
    }
    JoinProper(h1, t1, r.history, r.trace, |t|, cfg);
  }

  /** Any number of reconciles, with anybody's edits and deletions between any two calls. */
  method ReconcileDatabaseRepeatedly(r: Remote, cfg: Config, rounds: nat)
    requires r.Valid()
    modifies r
    ensures r.Grew()
    ensures ProperAll(r.history, r.trace, |old(r.trace)|, |r.trace|, cfg)
  {
    hide Perform, Disturb, Replayed, ProperAll, OneStep;
    ghost var t := r.trace;
    NothingDone(r.history, r.trace, cfg);
    for k := 0 to rounds
      invariant r.Grew() && ProperAll(r.history, r.trace, |t|, |r.trace|, cfg)
    {
      ghost var h1, t1 := r.history, r.trace;
      ReconcileDatabase(r, cfg);
      JoinProper(h1, t1, r.history, r.trace, |t|, cfg);
    }
  }
}
