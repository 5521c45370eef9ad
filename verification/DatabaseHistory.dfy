/**
 What whole runs of the Database lifecycle guarantee: the acts of any number of reconciles, each proper given what came
 before it, with anybody's edits in between.
 */
module DatabaseHistory {
  import opened Basics
  import opened Cluster
  import opened VaultStore
  import opened PostgresOps
  import opened AdminSteps
  import opened AdminCredentials
  import opened UserPasswords
  import opened DatabaseLifecycle

  // ------------------------------------------------------------------ finalizers

  /** An effective write of the operator hits exactly the object that was fetched. */
  lemma WritesHitTheSeen(h: seq<World>, t: seq<Act>, i: nat, cfg: Config)
    requires Replayed(h, t) && |h| == |t| + 1 && i < |t| && Proper(h, t, i, cfg) && Versioned(h[0])
    requires t[i].ObjectUpdate? || t[i].ObjectStatus?
    ensures Current(h[i], t[i].copy) ==> h[i].database == Seen(h, t, i)
  {
    hide Perform, Issued, Excused, Finalizes, Guarded, Made, Unwritten, Unqueried;
    var k := LastFetch(t, i);
    VersionedThroughout(h, t, k);
    var c := Seen(h, t, i).value;
    assert t[i].copy.version == c.version by { FinalizesKeepsVersion(t[i].copy, c); }
    SameVersionSameObject(h, t, k, i, c);
  }

  lemma FinalizesKeepsVersion(copy: DatabaseObject, c: DatabaseObject)
    ensures Finalizes(copy, c) ==> copy.version == c.version && copy.spec == c.spec
  {
  }

  lemma {:induction false} VersionedThroughout(h: seq<World>, t: seq<Act>, i: nat)
    requires Replayed(h, t) && i <= |t| && Versioned(h[0])
    ensures Versioned(h[i])
  {
    if i > 0 {
      hide Perform, Replayed, Versioned;
      VersionedThroughout(h, t, i - 1);
      ReplayedAt(h, t, i - 1);
      ActsVersion(h[i - 1], t[i - 1]);
    }
  }

  function FinalizersOf(d: Option<DatabaseObject>): seq<string> {
    if d.Some? then d.value.finalizers else []
  }

  /**
   The finalizer in every run: when an act of the operator takes it off an object, that very object, as stored at that
   moment, has a deletion timestamp; and if its database was to be dropped, the server has confirmed that and no longer
   has the database, or the operator has only looked since the fetch and found no connected instance, or no credentials
   in any read.
   */
  lemma FinalizerLeavesOnlyWithReason(h: seq<World>, t: seq<Act>, i: nat, cfg: Config)
    requires Replayed(h, t) && |h| == |t| + 1 && i < |t| && Proper(h, t, i, cfg) && Versioned(h[0]) && !t[i].Disturbed?
    requires FINALIZER in FinalizersOf(h[i].database) && FINALIZER !in FinalizersOf(h[i + 1].database)
    ensures var d := h[i].database.value;
            && d.deleting
            && (Doomed(d) ==>
                || (d.spec.database !in ServerOf(h[i], d.spec.id).databases
                    && exists k :: LastFetch(t, i) < k < i && DropConfirmed(h[k], t[k], d.spec.id, d.spec.database))
                || (OnlyLooked(t, i)
                    && (!cfg.vault || cfg.vaultRetries < 1 || NoInstance(h, t, i, d) || NoCredentials(h, t, i, d))))
  {
    hide Perform, Issued, NoInstance, NoCredentials, OnlyLooked, DropConfirmed, Guarded, Unwritten, Unqueried;
    ReplayedAt(h, t, i);
    OnlyWritesChangeTheObject(h[i], t[i]);
    WritesHitTheSeen(h, t, i, cfg);
  }

  /** All other finalizers keep their order under every act of the operator. */
  lemma OtherFinalizersStay(h: seq<World>, t: seq<Act>, i: nat, cfg: Config)
    requires Replayed(h, t) && |h| == |t| + 1 && i < |t| && Proper(h, t, i, cfg) && Versioned(h[0]) && !t[i].Disturbed?
    ensures Without(FinalizersOf(h[i + 1].database), FINALIZER) == Without(FinalizersOf(h[i].database), FINALIZER)
  {
    hide Perform, Excused, Issued, Guarded, Unwritten, Unqueried;
    ReplayedAt(h, t, i);
    OnlyWritesChangeTheObject(h[i], t[i]);
    if t[i].ObjectUpdate? {
      WritesHitTheSeen(h, t, i, cfg);
      var c := Seen(h, t, i).value;
      WithoutAppends(c.finalizers, FINALIZER, FINALIZER);
    }
  }

  lemma OnlyWritesChangeTheObject(w: World, act: Act)
    requires !act.Disturbed?
    ensures var w' := Perform(w, act);
            if act.ObjectUpdate? && act.outcome != Outcome.Dropped && Current(w, act.copy)
            then FinalizersOf(w'.database) == act.copy.finalizers
                 && (w'.database.Some? ==> SameMarks(w.database, w'.database.value.deleting, act.copy.spec,
                                                     w'.database))
            else FinalizersOf(w'.database) == FinalizersOf(w.database)
                 && (w'.database.Some? ==>
                     w.database.Some?
                     && SameMarks(w.database, w.database.value.deleting, w.database.value.spec, w'.database))
  {
  }

  /** The later object has the earlier one's deletion mark, and this spec. */
  predicate SameMarks(before: Option<DatabaseObject>, deleting: bool, spec: DatabaseSpec,
                      after: Option<DatabaseObject>) {
    before.Some? && after.Some? && before.value.deleting == deleting == after.value.deleting && after.value.spec == spec
  }

  // ------------------------------------------------------------------ statements

  /** What others make of an object. */
  function Edit(e: DatabaseObject, act: Act): DatabaseObject {
    if act.Disturbed? && act.who.ObjectEdit? then
      match act.who.event
      case SpecEdited(spec) => e.(spec := spec)
      case FinalizersEdited(finalizers) => e.(finalizers := finalizers)
      case DeleteRequested => e.(deleting := true)
      case ObjectCreated(_, _) => e
    else e
  }

  /** The copy fetched at k with everything others have done to the object until i. */
  function Edited(t: seq<Act>, k: nat, i: nat, c: DatabaseObject): DatabaseObject
    requires k < i <= |t|
    decreases i
  {
    if i == k + 1 then c else Edit(Edited(t, k, i - 1, c), t[i - 1])
  }

  lemma LastFetchIs(t: seq<Act>, i: nat)
    requires 0 < i <= |t| && LastFetch(t, i) == i - 1
    ensures t[i - 1].ObjectFetch?
  {
  }

  lemma LastFetchBefore(t: seq<Act>, i: nat)
    requires 0 < i <= |t| && LastFetch(t, i) < i - 1
    ensures LastFetch(t, i - 1) == LastFetch(t, i)
  {
  }

  /** An edit of an object that stays there. */
  lemma EditTakesEffect(w: World, act: Act)
    requires act.Disturbed? && w.database.Some? && Perform(w, act).database.Some?
    ensures var d, e := Perform(w, act).database.value, Edit(w.database.value, act);
            d.deleting == e.deleting && d.spec == e.spec && d.finalizers == e.finalizers
  {
    hide Perform, Disturb;
    PerformDisturbs(w, act.who);
    OthersEdit(w, act.who);
  }

  lemma OthersEdit(w: World, a: Outside)
    ensures Disturb(w, a).database == if a.ObjectEdit? then ApplyEvent(w, a.event).database else w.database
  {
  }

  /**
   As long as it is there, the stored object is the fetched copy with what others have done to it since; the operator's
   own writes change nothing but finalizers.
   */
  lemma {:induction false} ObjectIsCopyPlusEdits(h: seq<World>, t: seq<Act>, k: nat, i: nat, cfg: Config,
                                                 c: DatabaseObject)
    requires Replayed(h, t) && |h| == |t| + 1 && Versioned(h[0])
    requires k < i <= |t| && LastFetch(t, i) == k && Seen(h, t, i) == Some(c)
    requires forall j :: k < j < i ==> Proper(h, t, j, cfg)
    requires forall j :: k < j <= i ==> h[j].database.Some?
    ensures var d, e := h[i].database.value, Edited(t, k, i, c);
            d.deleting == e.deleting && d.spec == e.spec && (Unwritten(t, i) ==> d.finalizers == e.finalizers)
    decreases i
  {
    hide Perform, Replayed, Proper, LastFetch, Edit;
    ReplayedAt(h, t, i - 1);
    if i == k + 1 {
      LastFetchIs(t, i);
      ReadsChangeNothing(h[k], t[k]);
    } else {
      LastFetchBefore(t, i);
      ObjectIsCopyPlusEdits(h, t, k, i - 1, cfg, c);
      EditStep(h, t, k, i - 1, cfg, c);
      EditAgrees(h[i - 1].database.value, Edited(t, k, i - 1, c), t[i - 1]);
    }
  }

  lemma EditAgrees(d: DatabaseObject, e: DatabaseObject, act: Act)
    requires d.deleting == e.deleting && d.spec == e.spec
    ensures Edit(d, act).deleting == Edit(e, act).deleting && Edit(d, act).spec == Edit(e, act).spec
    ensures d.finalizers == e.finalizers ==> Edit(d, act).finalizers == Edit(e, act).finalizers
  {
  }

  lemma EditStep(h: seq<World>, t: seq<Act>, k: nat, i: nat, cfg: Config, c: DatabaseObject)
    requires Replayed(h, t) && |h| == |t| + 1 && Versioned(h[0])
    requires k < i < |t| && h[i + 1] == Perform(h[i], t[i]) && Seen(h, t, i) == Some(c) && Proper(h, t, i, cfg)
    requires h[i].database.Some? && h[i + 1].database.Some?
    ensures var d, e := h[i + 1].database.value, h[i].database.value;
            && d.deleting == Edit(e, t[i]).deleting && d.spec == Edit(e, t[i]).spec
            && (!t[i].ObjectUpdate? ==> d.finalizers == Edit(e, t[i]).finalizers)
  {
    hide Perform, Replayed, Issued, Excused, Guarded, Unwritten, Unqueried, Made, LastFetch;
    if t[i].Disturbed? {
      EditTakesEffect(h[i], t[i]);
    } else {
      OnlyWritesChangeTheObject(h[i], t[i]);
      if t[i].ObjectUpdate? {
        WritesHitTheSeen(h, t, i, cfg);
        FinalizesKeepsVersion(t[i].copy, c);
      }
    }
  }

  ghost predicate DeletionRequested(t: seq<Act>, k: nat, i: nat)
    requires i <= |t|
  {
    exists j :: k < j < i && t[j] == Disturbed(ObjectEdit(DeleteRequested))
  }

  /** A deletion mark comes from the copy or from a request since. */
  lemma {:induction false} MarkedIffRequested(t: seq<Act>, k: nat, i: nat, c: DatabaseObject)
    requires k < i <= |t|
    ensures Edited(t, k, i, c).deleting <==> c.deleting || DeletionRequested(t, k, i)
    decreases i
  {
    if k + 1 < i {
      MarkedIffRequested(t, k, i - 1, c);
      assert DeletionRequested(t, k, i) <==>
             DeletionRequested(t, k, i - 1) || t[i - 1] == Disturbed(ObjectEdit(DeleteRequested));
    }
  }

  lemma {:induction false} UneditedIsCopy(t: seq<Act>, k: nat, i: nat, c: DatabaseObject)
    requires k < i <= |t| && forall j :: k < j < i ==> !(t[j].Disturbed? && t[j].who.ObjectEdit?)
    ensures Edited(t, k, i, c) == c
    decreases i
  {
    if k + 1 < i {
      UneditedIsCopy(t, k, i - 1, c);
    }
  }

  predicate Destroys(stmt: Stmt) {
    stmt.DropDatabase? || stmt.TerminateSessions?
  }

  /**
   Statements against the stored object, while it is there. The database is dropped only under a deletion timestamp,
   with whatever spec and finalizers others have given the object since the fetch; it is created or altered under a
   deletion timestamp exactly if the deletion was requested since the fetch.
   */
  lemma StatementsMeetTheObject(h: seq<World>, t: seq<Act>, i: nat, cfg: Config)
    requires Replayed(h, t) && |h| == |t| + 1 && Versioned(h[0]) && i < |t| && t[i].Sql?
    requires forall j :: LastFetch(t, i) < j <= i ==> Proper(h, t, j, cfg) && h[j].database.Some?
    ensures LastFetch(t, i) >= 0 && Seen(h, t, i).Some?
    ensures var k, c, d := LastFetch(t, i), Seen(h, t, i).value, h[i].database.value;
            var e := Edited(t, k, i, c);
            && t[i].id == c.spec.id && d.spec == e.spec
            && (if Destroys(t[i].stmt)
                then t[i].stmt.name == c.spec.database && d.deleting && (Doomed(d) <==> Doomed(e))
                else d.deleting <==> DeletionRequested(t, k, i))
  {
    hide Perform, Replayed, Excused, Guarded, Unqueried, Made, LastFetch, Unwritten, Edited, DeletionRequested;
    assert Proper(h, t, i, cfg);
    var c := Seen(h, t, i).value;
    ObjectIsCopyPlusEdits(h, t, LastFetch(t, i), i, cfg, c);
    MarkedIffRequested(t, LastFetch(t, i), i, c);
  }

  /** A write of the object that leaves it without finalizers. */
  ghost predicate LetsGo(w: World, act: Act)
    requires w.database.Some?
  {
    var d := w.database.value;
    match act
    case Disturbed(ObjectEdit(SpecEdited(_))) => d.finalizers == []
    case Disturbed(ObjectEdit(FinalizersEdited(finalizers))) => finalizers == []
    case Disturbed(ObjectEdit(DeleteRequested)) => !d.deleting && d.finalizers == []
    case ObjectUpdate(copy, o) => o != Outcome.Dropped && Current(w, copy) && copy.finalizers == []
    case ObjectStatus(copy, o) => o != Outcome.Dropped && Current(w, copy) && d.finalizers == []
    case _ => false
  }

  lemma GoesIff(w: World, act: Act)
    requires w.database.Some?
    ensures Perform(w, act).database.None? <==> LetsGo(w, act) && Edit(w.database.value, act).deleting
  {
    hide Perform, Disturb;
    if act.Disturbed? {
      PerformDisturbs(w, act.who);
      OthersEdit(w, act.who);
    } else {
      WritesGo(w, act);
    }
  }

  lemma WritesGo(w: World, act: Act)
    requires w.database.Some? && !act.Disturbed?
    ensures Perform(w, act).database.None? <==> LetsGo(w, act) && w.database.value.deleting
  {
    hide Apply, Accepted, Disturb;
  }

  /**
   The other case. The object is not there throughout since the fetch exactly if some write since left it without
   finalizers and under a deletion timestamp: the copy's own, or requested since.
   */
  lemma {:induction false} GoneIffLetGo(h: seq<World>, t: seq<Act>, i: nat, cfg: Config)
    requires Replayed(h, t) && |h| == |t| + 1 && Versioned(h[0]) && i <= |t| && Seen(h, t, i).Some?
    requires forall j :: LastFetch(t, i) < j < i ==> Proper(h, t, j, cfg)
    ensures var k, c := LastFetch(t, i), Seen(h, t, i).value;
            (exists j :: k < j <= i && h[j].database.None?)
            <==> exists j :: k < j < i && h[j].database.Some? && LetsGo(h[j], t[j])
                             && (c.deleting || DeletionRequested(t, k, j + 1))
    decreases i
  {
    hide Perform, Replayed, Proper, LastFetch, Edit, Edited, LetsGo, DeletionRequested, Versioned;
    var k, c := LastFetch(t, i), Seen(h, t, i).value;
    if k == i - 1 {
      ReplayedAt(h, t, k);
      LastFetchIs(t, i);
      ReadsChangeNothing(h[k], t[k]);
    } else {
      LastFetchBefore(t, i);
      GoneIffLetGo(h, t, i - 1, cfg);
      if forall j :: k < j <= i - 1 ==> h[j].database.Some? {
        LastStepGoes(h, t, i, cfg);
      }
    }
  }

  lemma LastStepGoes(h: seq<World>, t: seq<Act>, i: nat, cfg: Config)
    requires Replayed(h, t) && |h| == |t| + 1 && Versioned(h[0]) && 0 < i <= |t| && Seen(h, t, i).Some?
    requires LastFetch(t, i) < i - 1
    requires forall j :: LastFetch(t, i) < j < i ==> Proper(h, t, j, cfg) && h[j].database.Some?
    ensures h[i].database.None? <==>
            LetsGo(h[i - 1], t[i - 1]) && (Seen(h, t, i).value.deleting || DeletionRequested(t, LastFetch(t, i), i))
  {
    hide Perform, Replayed, Proper, LastFetch, Edit, LetsGo, DeletionRequested;
    var k, c := LastFetch(t, i), Seen(h, t, i).value;
    LastFetchBefore(t, i);
    ReplayedAt(h, t, i - 1);
    GoesIff(h[i - 1], t[i - 1]);
    ObjectIsCopyPlusEdits(h, t, k, i - 1, cfg, c);
    EditAgrees(h[i - 1].database.value, Edited(t, k, i - 1, c), t[i - 1]);
    MarkedIffRequested(t, k, i, c);
  }

  /** Unless others edit it, an object that is not being deleted, or keeps a finalizer, stays. */
  lemma {:induction false} UneditedStays(h: seq<World>, t: seq<Act>, i: nat, cfg: Config)
    requires Replayed(h, t) && |h| == |t| + 1 && Versioned(h[0]) && i <= |t| && Seen(h, t, i).Some?
    requires forall j :: LastFetch(t, i) < j < i ==> Proper(h, t, j, cfg)
    requires forall j :: LastFetch(t, i) < j < i ==> !(t[j].Disturbed? && t[j].who.ObjectEdit?)
    requires Seen(h, t, i).value.deleting ==> Unwritten(t, i) && Seen(h, t, i).value.finalizers != []
    ensures forall j :: LastFetch(t, i) < j <= i ==> h[j].database.Some?
    decreases i
  {
    hide Perform, Replayed, Proper, LastFetch, Edit, Edited, Versioned;
    var k, c := LastFetch(t, i), Seen(h, t, i).value;
    if k == i - 1 {
      ReplayedAt(h, t, k);
      LastFetchIs(t, i);
      ReadsChangeNothing(h[k], t[k]);
    } else {
      LastFetchBefore(t, i);
      UneditedStays(h, t, i - 1, cfg);
      LastStepGoes(h, t, i, cfg);
      ObjectIsCopyPlusEdits(h, t, k, i - 1, cfg, c);
      UneditedIsCopy(t, k, i - 1, c);
    }
  }

  /** So, unedited since the fetch, the object is there and calls for the very statement. */
  lemma StatementsMatchTheObject(h: seq<World>, t: seq<Act>, i: nat, cfg: Config)
    requires Replayed(h, t) && |h| == |t| + 1 && Versioned(h[0]) && i < |t| && t[i].Sql?
    requires forall j :: LastFetch(t, i) < j <= i ==> Proper(h, t, j, cfg)
    requires forall j :: LastFetch(t, i) < j < i ==> !(t[j].Disturbed? && t[j].who.ObjectEdit?)
    ensures h[i].database.Some?
    ensures var d := h[i].database.value;
            && t[i].id == d.spec.id
            && (if Destroys(t[i].stmt) then Doomed(d) && t[i].stmt.name == d.spec.database else !d.deleting)
  {
    hide Perform, Replayed, Excused, Guarded, Unqueried, Made, LastFetch, Unwritten;
    assert Proper(h, t, i, cfg);
    UneditedStays(h, t, i, cfg);
    StatementsMeetTheObject(h, t, i, cfg);
    UneditedIsCopy(t, LastFetch(t, i), i, Seen(h, t, i).value);
  }

  // ------------------------------------------------------------------- witnesses

  /**
   The gap is real: a deletion that is requested between the fetch and the statement does not stop a CREATE DATABASE,
   and the server makes the database of an object that is being deleted or, if it had no finalizer, is gone.
   */
  lemma CreateAfterDeleteRequest(w: World, conn: Conn, cfg: Config)
    requires w.database.Some? && !w.database.value.deleting
    requires w.database.value.spec.deleteFromCRD ==> FINALIZER in w.database.value.finalizers
    requires var spec := w.database.value.spec;
             Accepted(w, spec.id, conn, CreateDatabase(spec.database, spec.owner, spec.template))
    ensures var spec := w.database.value.spec;
            var t := [ObjectFetch(Acked), Disturbed(ObjectEdit(DeleteRequested)),
                      Sql(spec.id, conn, CreateDatabase(spec.database, spec.owner, spec.template), Acked)];
            var w1 := Perform(w, t[1]);
            var h := [w, w, w1, Perform(w1, t[2])];
            && Replayed(h, t) && ProperAll(h, t, 0, |t|, cfg)
            && (if w.database.value.finalizers == [] then h[2].database.None?
                else h[2].database.Some? && h[2].database.value.deleting)
            && spec.database !in ServerOf(h[2], spec.id).databases && spec.database in ServerOf(h[3], spec.id).databases
  {
    var c := w.database.value;
    var t := [ObjectFetch(Acked), Disturbed(ObjectEdit(DeleteRequested)),
              Sql(c.spec.id, conn, CreateDatabase(c.spec.database, c.spec.owner, c.spec.template), Acked)];
    var w1 := Perform(w, t[1]);
    var h := [w, w, w1, Perform(w1, t[2])];
    assert Replayed(h, t) by {
      ThreeActs(w, t);
    }
    assert LastFetch(t, 1) == 0 && LastFetch(t, 2) == 0;
    assert Seen(h, t, 2) == Some(c);
  }

  /**
   So is the one on the other side: taking back the wish to drop the database, or the finalizer, between the fetch and
   the statement does not stop a DROP DATABASE.
   */
  lemma DropAfterItIsTakenBack(w: World, conn: Conn, cfg: Config, e: ObjectEvent)
    requires w.database.Some? && Doomed(w.database.value)
    requires (e.SpecEdited? && !e.spec.deleteFromCRD) || (e.FinalizersEdited? && FINALIZER !in e.finalizers)
    requires Accepted(w, w.database.value.spec.id, conn, DropDatabase(w.database.value.spec.database))
    ensures var spec := w.database.value.spec;
            var t := [ObjectFetch(Acked), Disturbed(ObjectEdit(e)),
                      Sql(spec.id, conn, DropDatabase(spec.database), Acked)];
            var w1 := Perform(w, t[1]);
            var h := [w, w, w1, Perform(w1, t[2])];
            && Replayed(h, t) && ProperAll(h, t, 0, |t|, cfg)
            && (h[2].database.Some? ==> !Doomed(h[2].database.value))
            && (h[2].database.None? <==> e.FinalizersEdited? && e.finalizers == [])
            && spec.database in ServerOf(h[2], spec.id).databases && spec.database !in ServerOf(h[3], spec.id).databases
  {
    var c := w.database.value;
    var t := [ObjectFetch(Acked), Disturbed(ObjectEdit(e)), Sql(c.spec.id, conn, DropDatabase(c.spec.database), Acked)];
    var w1 := Perform(w, t[1]);
    var h := [w, w, w1, Perform(w1, t[2])];
    assert Replayed(h, t) by {
      ThreeActs(w, t);
    }
    assert LastFetch(t, 1) == 0 && LastFetch(t, 2) == 0;
    assert Seen(h, t, 2) == Some(c);
  }

  // --------------------------------------------------------- undisturbed reconciles

  function DatabasesOf(w: World, c: DatabaseObject): map<string, Db> {
    ServerOf(w, c.spec.id).databases
  }

  /**
   How a deletion without faults ends. The finalizer goes exactly if there is no administrator or one who can drop the
   database; the database goes exactly in the second case; no other database changes.
   */
  lemma DeletionEnds(w: World, cfg: Config, c: DatabaseObject)
    requires w.database == Some(c) && Doomed(c)
    ensures var e, admin := DeletionDone(w, cfg, c), Administrator(w, cfg, c);
            var drops := admin.Some? && Feasible(w, c.spec.id, admin.value, DeleteDb(c.spec.database));
            && (FINALIZER !in FinalizersOf(e.database) <==> admin.None? || drops)
            && (e.database.None? <==> (admin.None? || drops) && forall f :: f in c.finalizers ==> f == FINALIZER)
            && DatabasesOf(e, c) == if drops then WithoutDatabase(ServerOf(w, c.spec.id), c.spec.database).databases
                                    else DatabasesOf(w, c)
  {
    hide Administrator, CanConnect, Finalized;
    FinalizedEnds(w, c);
    FinalizedEnds(WithoutItsDatabase(w, c), c);
  }

  lemma FinalizedEnds(w: World, c: DatabaseObject)
    requires w.database == Some(c) && c.deleting
    ensures var w' := Finalized(w, c);
            && w'.servers == w.servers && FINALIZER !in FinalizersOf(w'.database)
            && (w'.database.None? <==> forall f :: f in c.finalizers ==> f == FINALIZER)
  {
    var rest := Without(c.finalizers, FINALIZER);
    assert rest != [] ==> rest[0] in rest && rest[0] in c.finalizers;
  }

  /**
   How a creation or update without faults ends: the database has its owner and `created` is true exactly if the
   operation could be done; nothing else about object or server changes.
   */
  lemma CreationEnds(w: World, cfg: Config, c: DatabaseObject)
    requires w.database == Some(c) && !c.deleting
    ensures var e := CreationDone(w, cfg, c);
            var can := Reachable(w, c) && Feasible(w, c.spec.id, AdminOf(w, cfg, c.spec.id), SyncOf(c));
            && e.database == Some(c.(version := w.revision + 1, created := if Reachable(w, c) then can else c.created))
            && (can ==> Made(e, c))
            && (!can ==> e.servers == w.servers)
            && (forall d :: d != c.spec.database ==>
                  (d in DatabasesOf(e, c) <==> d in DatabasesOf(w, c))
                  && (d in DatabasesOf(w, c) ==> DatabasesOf(e, c)[d] == DatabasesOf(w, c)[d]))
  {
    hide CanConnect, AdminOf;
  }
}
