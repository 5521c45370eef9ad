/**
 All controllers together: any interleaving of their acts, with those of others and with crashes, over any number of
 instances and users. A reconcile of an instance takes part as the program of `AdminSteps`, which only knows what the
 answers to its own calls have told it; that every reconcile is a run of this program is shown where it is defined.
 */
module Composition {
  import opened Basics
  import opened Cluster
  import opened VaultStore
  import opened PostgresOps
  import opened AdminSteps
  import opened AdminCredentials
  import opened UserPasswords
  import DatabaseLifecycle
  import GrantSql

  /** Reads, writes of the Database object, and the statements of the database, role group and grant controllers. */
  predicate ChangesNoCredential(act: Act) {
    || IsRead(act) || act.ObjectUpdate? || act.ObjectStatus?
    || (act.Sql? && !act.stmt.CreateUser? && !act.stmt.AlterUser?)
  }

  ghost predicate AdminAct(w: World, act: Act) {
    exists id :: NoSlash(id) && Allowed(w, act, id)
  }

  ghost predicate SomeUserAct(w: World, act: Act) {
    exists name, id, username {:trigger UserAct(w, act, name, id, username)} ::
      Manageable(w, id, username) && UserAct(w, act, name, id, username)
  }

  /** What the operator may do in state w, whichever of its controllers it is. */
  ghost predicate OperatorAct(w: World, act: Act) {
    AdminAct(w, act) || SomeUserAct(w, act) || ChangesNoCredential(act) || act.Disturbed?
  }

  // ------------------------------------------------- every controller only does such acts

  /** Databases, role groups and grants: every act of these operations. */
  lemma OperationsAreOperatorActs(w: World, act: Act, id: string, admin: Login, op: PgOp)
    requires OpAct(w, act, id, admin, op) && !op.SyncUser?
    ensures ChangesNoCredential(act) || act.Disturbed?
  {
  }

  /** Database objects. */
  lemma LifecycleIsOperatorActs(h: seq<World>, t: seq<Act>, i: nat, cfg: Config)
    requires i < |t| < |h| && DatabaseLifecycle.Proper(h, t, i, cfg)
    ensures ChangesNoCredential(t[i]) || t[i].Disturbed?
  {
    hide DatabaseLifecycle.Excused, DatabaseLifecycle.Finalizes, DatabaseLifecycle.Guarded, DatabaseLifecycle.Unqueried;
  }

  // ------------------------------------------------------------ frames of the two protocols

  /** A step for one user leaves every administrator's secret and password, and every other user's, as they are. */
  lemma UserActsLeaveOthersAlone(w: World, act: Act, name: string, id: string, username: string, id': string,
                                 other: string)
    requires Manageable(w, id, username) && UserAct(w, act, name, id, username) && !act.Disturbed?
    requires NoSlash(id') && (id', other) != (id, username)
    ensures var w', path := Perform(w, act), UserPath(w.mount, id', other);
            && (path in w'.vault <==> path in w.vault) && (path in w.vault ==> w'.vault[path] == w.vault[path])
            && Answer(w', ReadDefault) == Answer(w, ReadDefault)
            && ActualPassword(w', id', other) == ActualPassword(w, id', other)
  {
    if act.VaultPut? {
      PutWrites(w, act.path, act.secret, act.outcome);
      DefaultPathIsApart(w.mount, id, username);
      if UserPath(w.mount, id', other) == UserPath(w.mount, id, username) {
        PathsAreInjective(w.mount, id', other, id, username);
      }
    } else if act.Sql? {
      StatementsTakeEffect(w, id, act.conn, act.stmt, act.outcome);
    }
  }

  /** A step of a rotation or registration leaves every user's secret and password as they are. */
  lemma AdminActsLeaveUsersAlone(w: World, act: Act, id: string, id': string, username: string)
    requires NoSlash(id) && Allowed(w, act, id) && Safe(w, id) && !act.Disturbed? && Manageable(w, id', username)
    ensures var w', path := Perform(w, act), UserPath(w.mount, id', username);
            && (path in w'.vault <==> path in w.vault) && (path in w.vault ==> w'.vault[path] == w.vault[path])
            && ActualPassword(w', id', username) == ActualPassword(w, id', username)
            && w'.users == w.users
  {
    if act.VaultPut? {
      PutWrites(w, act.path, act.secret, act.outcome);
      if UserPath(w.mount, id', username) == AdminPath(w.mount, id) {
        PathsAreInjective(w.mount, id', username, id, "instance_admin");
      }
    } else if act.Sql? {
      StatementsTakeEffect(w, id, act.conn, act.stmt, act.outcome);
    }
  }

  // ------------------------------------------------ what others do, seen from an instance

  lemma StatementKeepsPasswords(s: Server, database: string, stmt: Stmt)
    requires !stmt.CreateUser? && !stmt.AlterUser? && Apply(s, database, stmt).Some?
    ensures Apply(s, database, stmt).value.passwords == s.passwords
  {
    hide GrantSql.ReadStatement, Granted;
  }

  lemma StatementApplies(w: World, id: string, c: Conn, stmt: Stmt)
    requires Accepted(w, id, c, stmt)
    ensures id in w.servers && Apply(w.servers[id], c.database, stmt).Some?
  {
  }

  /** Acts of other controllers leave everything unchanged that a reconcile of an instance may have read. */
  lemma OthersChangeNothing(w: World, act: Act, instance: string)
    requires NoSlash(instance) && (SomeUserAct(w, act) || ChangesNoCredential(act) || act.Disturbed?)
    ensures Unchanged(w, Perform(w, act), instance)
  {
    hide Perform, UserAct, Unchanged;
    if act.Disturbed? {
      LookChangesNothing(w, act, instance);
    } else if ChangesNoCredential(act) {
      CatalogActsChangeNothing(w, act, instance);
    } else {
      var name, id, username :| Manageable(w, id, username) && UserAct(w, act, name, id, username);
      UserActsChangeNothing(w, act, name, id, username, instance);
    }
  }

  lemma UserActsChangeNothing(w: World, act: Act, name: string, id: string, username: string, instance: string)
    requires Manageable(w, id, username) && UserAct(w, act, name, id, username) && !act.Disturbed? && NoSlash(instance)
    ensures Unchanged(w, Perform(w, act), instance)
  {
    hide Perform, UserAct;
    ActsKeepTheFrame(w, act);
    UserActsLeaveOthersAlone(w, act, name, id, username, instance, "instance_admin");
    forall u | u in w.admins
      ensures ActualPassword(Perform(w, act), instance, u) == ActualPassword(w, instance, u)
    {
      UserActsLeaveOthersAlone(w, act, name, id, username, instance, u);
    }
  }

  lemma CatalogActsChangeNothing(w: World, act: Act, instance: string)
    requires ChangesNoCredential(act)
    ensures Unchanged(w, Perform(w, act), instance)
  {
    hide Apply, Accepted, Answer;
    if act.Sql? {
      StatementsTakeEffect(w, act.id, act.conn, act.stmt, act.outcome);
      if act.outcome != Dropped && Accepted(w, act.id, act.conn, act.stmt) {
        StatementApplies(w, act.id, act.conn, act.stmt);
        StatementKeepsPasswords(w.servers[act.id], act.conn.database, act.stmt);
      }
    }
    var w' := Perform(w, act);
    assert w'.vault == w.vault && w'.mount == w.mount && w'.admins == w.admins;
    assert ServerOf(w', instance).passwords == ServerOf(w, instance).passwords;
    SameAnswer(w, w');
  }

  lemma SameAnswer(w: World, w': World)
    requires w'.vault == w.vault && w'.mount == w.mount
    ensures Answer(w', ReadDefault) == Answer(w, ReadDefault)
  {
  }

  /** A reconcile of one instance leaves everything about another as it is. */
  lemma AdminActsLeaveOtherInstances(w: World, act: Act, id: string, instance: string)
    requires NoSlash(id) && NoSlash(instance) && id != instance && Allowed(w, act, id) && !act.Disturbed?
    ensures Unchanged(w, Perform(w, act), instance)
  {
    ActsKeepTheFrame(w, act);
    if act.VaultPut? {
      PutWrites(w, act.path, act.secret, act.outcome);
      DefaultPathIsApart(w.mount, id, "instance_admin");
      if AdminPath(w.mount, instance) == AdminPath(w.mount, id) {
        PathsAreInjective(w.mount, instance, "instance_admin", id, "instance_admin");
      }
    } else if act.Sql? {
      StatementsTakeEffect(w, id, act.conn, act.stmt, act.outcome);
    }
  }

  // -------------------------------------------------------------------- invariance

  /** What leaves an instance unchanged keeps it safe. */
  lemma UnchangedIsSafe(w: World, w': World, instance: string)
    requires Unchanged(w, w', instance) && Safe(w, instance)
    ensures Safe(w', instance)
  {
    hide Answer;
  }

  lemma OperatorActKeepsSafe(w: World, act: Act, instance: string)
    requires OperatorAct(w, act) && NoSlash(instance) && Safe(w, instance)
    ensures Safe(Perform(w, act), instance)
  {
    hide Perform, Safe, Allowed, SomeUserAct, Unchanged;
    if AdminAct(w, act) {
      var id :| NoSlash(id) && Allowed(w, act, id);
      AllowedKeepsSafe(w, act, instance, id);
    } else {
      OthersChangeNothing(w, act, instance);
      UnchangedIsSafe(w, Perform(w, act), instance);
    }
  }

  // ------------------------------------------------------------------- interleavings

  /** Who acts: the reconciler of an instance, or anybody else. */
  datatype Actor = Reconciler(id: string) | Other

  type Memories = imap<string, Memory>

  ghost function Recall(ms: Memories, id: string): Memory {
    if id in ms then ms[id] else Nothing
  }

  /**
   One act of an interleaving. A reconciler does what its program allows after what it has learned so far, whatever has
   happened to the world since; everybody else does what the other controllers and other people do.
   */
  ghost predicate Interleaves(w: World, act: Act, actor: Actor, ms: Memories, ms': Memories) {
    match actor
    case Reconciler(id) =>
      && NoSlash(id) && !act.Disturbed? && Step(Recall(ms, id), w, act, id, Recall(ms', id))
      && forall other :: other != id ==> Recall(ms', other) == Recall(ms, other)
    case Other => ms' == ms && (SomeUserAct(w, act) || ChangesNoCredential(act) || act.Disturbed?)
  }

  ghost predicate Interleaving(h: seq<World>, t: seq<Act>, actors: seq<Actor>, ms: seq<Memories>) {
    && Replayed(h, t) && |h| == |t| + 1 && |actors| == |t| && |ms| == |t| + 1
    && forall i :: 0 <= i < |t| ==> Interleaves(h[i], t[i], actors[i], ms[i], ms[i + 1])
  }

  /** Every instance is safe, and what its reconciler relies on is true. */
  ghost predicate AllSound(w: World, ms: Memories) {
    forall id :: NoSlash(id) ==> Safe(w, id) && Knows(w, id, Recall(ms, id))
  }

  lemma InterleavingStep(w: World, act: Act, actor: Actor, ms: Memories, ms': Memories)
    requires AllSound(w, ms) && Interleaves(w, act, actor, ms, ms')
    ensures AllSound(Perform(w, act), ms')
    ensures actor.Reconciler? ==> Allowed(w, act, actor.id)
  {
    hide Perform, Safe, Knows, Allowed, Step, Unchanged, SomeUserAct;
    if actor.Reconciler? {
      ProgramIsSound(w, act, actor.id, Recall(ms, actor.id), Recall(ms', actor.id));
    }
    forall id | NoSlash(id)
      ensures Safe(Perform(w, act), id) && Knows(Perform(w, act), id, Recall(ms', id))
    {
      if actor == Reconciler(id) {
        AllowedKeepsSafe(w, act, id, id);
      } else {
        if actor.Reconciler? {
          AdminActsLeaveOtherInstances(w, act, actor.id, id);
        } else {
          OthersChangeNothing(w, act, id);
        }
        UnchangedIsSafe(w, Perform(w, act), id);
        KnowledgeStays(w, Perform(w, act), id, Recall(ms, id));
      }
    }
  }

  /**
   The live credential is never lost. In every state of every interleaving of the reconcilers of all instances with all
   other controllers and other people, whatever fails, whatever is lost and wherever anybody stops and starts again, an
   instance that has an admin secret has PostgreSQL's password for it in that secret.
   */
  lemma {:induction false} LiveInEveryRun(h: seq<World>, t: seq<Act>, actors: seq<Actor>, ms: seq<Memories>, i: nat)
    requires Interleaving(h, t, actors, ms) && i <= |t| && AllSound(h[0], ms[0])
    ensures AllSound(h[i], ms[i])
    ensures forall id :: NoSlash(id) ==> Live(h[i], id)
    ensures i < |t| && actors[i].Reconciler? ==> Allowed(h[i], t[i], actors[i].id)
  {
    hide Perform, Replayed, Interleaves, AllSound, Allowed, Live;
    if i > 0 {
      LiveInEveryRun(h, t, actors, ms, i - 1);
      ReplayedAt(h, t, i - 1);
      InterleavingStep(h[i - 1], t[i - 1], actors[i - 1], ms[i - 1], ms[i]);
    }
    if i < |t| {
      InterleavingStep(h[i], t[i], actors[i], ms[i], ms[i + 1]);
    }
    SoundMeansLive(h[i], ms[i]);
  }

  lemma SoundMeansLive(w: World, ms: Memories)
    requires AllSound(w, ms)
    ensures forall id :: NoSlash(id) ==> Live(w, id)
  {
    hide Live, Knows;
    forall id | NoSlash(id)
      ensures Live(w, id)
    {
      SafeMeansLive(w, id);
    }
  }

  lemma SafeMeansLive(w: World, instance: string)
    requires Safe(w, instance)
    ensures Live(w, instance)
  {
  }

  /** Users: every act of a reconcile is one of those above. */
  lemma UserReconcilesAreOperatorActs(h: seq<World>, t: seq<Act>, from: nat, upto: nat, name: string, u: UserObject,
                                      hash: string -> string, i: nat)
    requires from <= i < upto <= |t| < |h| && UserWindow(h, t, from, upto, name, u, hash)
    requires Manageable(h[i], u.id, u.username)
    ensures SomeUserAct(h[i], t[i])
  {
    hide Earned, UserAct;
  }
}
