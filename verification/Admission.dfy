/**
 Admission of the operator's six kinds of objects: reference checks, duplicate checks and the lookups that rely on
 uniqueness. List, check and commit are one step.
 */
module Admission {
  import opened Basics

  datatype Kind = PostgresqlKind | UserKind | DatabaseKind | GrantKind | RoleGroupKind | SchemaKind

  datatype Id = Id(kind: Kind, namespace: string, name: string)

  /**
   An object as far as admission looks at it. The key is what must be unique for its kind: [postgresqlID],
   [postgresqlID, username], [postgresqlID, database], [postgresqlID, role, database], [postgresqlID, groupRole] or
   [postgresqlID, schema]; a Postgresql object without external instance has none.
   */
  datatype Object = Object(id: Id, key: Option<seq<string>>)

  datatype Response = Allowed | Denied(reason: string) | Errored(code: nat)

  /** What a validator finds outside the API server. `vault` says whether a Vault client is configured. */
  datatype Env = Env(vault: bool, vaultHealthy: bool, connects: bool, excludedUsers: seq<string>)

  /** `owner` is the owner a Schema names. */
  datatype Request = Request(decodes: bool, isUpdate: bool, target: Object, owner: string)

  // -------------------------------------------------------------------- lookups

  /** The first object with the key. */
  function Find(items: seq<Object>, key: seq<string>): (r: Option<Object>)
    ensures r.Some? ==> r.value in items && r.value.key == Some(key)
    ensures r.None? ==> forall o :: o in items ==> o.key != Some(key)
  {
    if items == [] then None else if items[0].key == Some(key) then Some(items[0]) else Find(items[1..], key)
  }

  predicate KeysUnique(items: seq<Object>) {
    forall o, p :: o in items && p in items && o.key.Some? && o.key == p.key ==> o == p
  }

  /** With unique keys a lookup does not depend on the order of the list. */
  lemma FindIgnoresOrder(items: seq<Object>, shuffled: seq<Object>, key: seq<string>)
    requires KeysUnique(items) && multiset(items) == multiset(shuffled)
    ensures Find(shuffled, key) == Find(items, key)
  {
    assert forall o :: o in items <==> o in multiset(items);
    assert forall o :: o in shuffled <==> o in multiset(shuffled);
  }

  /** Without, it does. */
  lemma OrderMattersForDuplicates(o: Object, p: Object, key: seq<string>)
    requires o != p && o.key == Some(key) == p.key
    ensures multiset([o, p]) == multiset([p, o]) && Find([o, p], key) != Find([p, o], key)
  {
  }

  method FindPostgresqlByID(list: Option<seq<Object>>, postgresqlID: string) returns (found: Option<Object>)
    ensures found == if list.None? then None else Find(list.value, [postgresqlID])
  {
    if list.None? {
      return None;
    }
    var items := list.value;
    for i := 0 to |items|
      invariant Find(items, [postgresqlID]) == Find(items[i..], [postgresqlID])
    {
      if items[i].key == Some([postgresqlID]) {
        return Some(items[i]);
      }
      assert items[i..][1..] == items[i + 1..];
    }
    found := None;
  }

  /** None when the list cannot be read. */
  method DatabaseExists(list: Option<seq<Object>>, postgresqlID: string, database: string)
    returns (present: Option<bool>)
    ensures present == if list.None? then None else Some(Find(list.value, [postgresqlID, database]).Some?)
  {
    if list.None? {
      return None;
    }
    for i := 0 to |list.value|
      invariant forall k :: 0 <= k < i ==> list.value[k].key != Some([postgresqlID, database])
    {
      if list.value[i].key == Some([postgresqlID, database]) {
        return Some(true);
      }
    }
    present := Some(false);
  }

  /** Another object with the key of the request. */
  predicate Clashes(o: Object, req: Request) {
    !(req.isUpdate && o.id == req.target.id) && req.target.key.Some? && o.key == req.target.key
  }

  /** The six duplicate checks: a scan that skips the object itself on an update. */
  method CheckDuplicate(items: seq<Object>, req: Request) returns (found: Option<Object>)
    requires req.target.key.Some?
    ensures found.Some? ==> found.value in items && Clashes(found.value, req)
    ensures found.None? ==> forall o :: o in items ==> !Clashes(o, req)
  {
    for i := 0 to |items|
      invariant forall k :: 0 <= k < i ==> !Clashes(items[k], req)
    {
      if req.isUpdate && items[i].id == req.target.id {
        continue;
      }
      if items[i].key == req.target.key {
        return Some(items[i]);
      }
    }
    found := None;
  }

  // ------------------------------------------------------------------ validators

  predicate VaultFine(env: Env) {
    env.vault ==> env.vaultHealthy
  }

  /** The connection test is skipped without a Vault client. */
  predicate ConnectionFine(env: Env) {
    env.vault ==> env.connects
  }

  predicate Complete(key: Option<seq<string>>) {
    key.Some? && forall i :: 0 <= i < |key.value| ==> key.value[i] != ""
  }

  predicate NoClash(items: seq<Object>, req: Request) {
    forall o :: o in items ==> !Clashes(o, req)
  }

  predicate WellTyped(o: Object) {
    o.key.Some? ==> |o.key.value| == match o.id.kind case PostgresqlKind => 1 case GrantKind => 3 case _ => 2
  }

  method HandlePostgresql(req: Request, env: Env, list: Option<seq<Object>>) returns (resp: Response)
    requires WellTyped(req.target) && req.target.id.kind == PostgresqlKind
    ensures resp.Allowed? <==>
              req.decodes && Complete(req.target.key) && VaultFine(env) && ConnectionFine(env)
              && list.Some? && NoClash(list.value, req)
    ensures resp == Errored(400) <==> !req.decodes
    ensures resp == Errored(500) <==> req.decodes && Complete(req.target.key) && VaultFine(env) && list.None?
    ensures resp.Errored? ==> resp.code in {400, 500}
  {
    if !req.decodes {
      return Errored(400);
    }
    if req.target.key.None? || req.target.key.value[0] == "" {
      return Denied("externalInstance with postgresqlID is required");
    }
    if env.vault && !env.vaultHealthy {
      return Denied("Vault is not available");
    }
    if list.None? {
      return Errored(500);
    }
    var duplicate := CheckDuplicate(list.value, req);
    if duplicate.Some? {
      return Denied("duplicate postgresqlID");
    }
    if env.vault && !env.connects {
      return Denied("Cannot connect to PostgreSQL instance");
    }
    resp := Allowed;
  }

  /** The lists a request sees; None when the API server does not answer. */
  datatype Lists = Lists(postgresqls: Option<seq<Object>>, databases: Option<seq<Object>>, same: Option<seq<Object>>)

  predicate Refers(list: Option<seq<Object>>, key: seq<string>) {
    list.Some? && exists o :: o in list.value && o.key == Some(key)
  }

  method HandleGrant(req: Request, env: Env, lists: Lists) returns (resp: Response)
    requires WellTyped(req.target) && req.target.id.kind == GrantKind && req.target.key.Some?
    ensures resp.Allowed? <==>
              && req.decodes && Complete(req.target.key) && VaultFine(env) && ConnectionFine(env)
              && Refers(lists.postgresqls, [req.target.key.value[0]])
              && Refers(lists.databases, [req.target.key.value[0], req.target.key.value[2]])
              && lists.same.Some? && NoClash(lists.same.value, req)
    ensures resp == Errored(400) <==> !req.decodes
    ensures resp == Errored(500) <==>
              && req.decodes && Complete(req.target.key) && VaultFine(env) && ConnectionFine(env)
              && Refers(lists.postgresqls, [req.target.key.value[0]])
              && (lists.databases.None?
                  || (Refers(lists.databases, [req.target.key.value[0], req.target.key.value[2]]) && lists.same.None?))
    ensures resp.Errored? ==> resp.code in {400, 500}
  {
    if !req.decodes {
      return Errored(400);
    }
    var key := req.target.key.value;
    if key[0] == "" {
      return Denied("postgresqlID is required");
    }
    if key[1] == "" {
      return Denied("role is required");
    }
    if key[2] == "" {
      return Denied("database is required");
    }
    if env.vault && !env.vaultHealthy {
      return Denied("Vault is not available");
    }
    var postgresql := FindPostgresqlByID(lists.postgresqls, key[0]);
    if postgresql.None? {
      return Denied("PostgreSQL instance does not exist in the cluster");
    }
    if env.vault && !env.connects {
      return Denied("Cannot connect to PostgreSQL instance");
    }
    var database := DatabaseExists(lists.databases, key[0], key[2]);
    if database.None? {
      return Errored(500);
    }
    if !database.value {
      return Denied("Database does not exist in any namespace");
    }
    if lists.same.None? {
      return Errored(500);
    }
    var duplicate := CheckDuplicate(lists.same.value, req);
    if duplicate.Some? {
      return Denied("duplicate postgresqlID, role and database");
    }
    resp := Allowed;
  }

  /** The required fields of a User, Database, RoleGroup or Schema are there, and a User is not an excluded one. */
  predicate Acceptable(req: Request, env: Env)
    requires WellTyped(req.target) && !req.target.id.kind.PostgresqlKind? && req.target.key.Some?
  {
    && Complete(req.target.key)
    && (req.target.id.kind.SchemaKind? ==> req.owner != "")
    && !(req.target.id.kind.UserKind? && req.target.key.value[1] in env.excludedUsers)
  }

  /** Users, databases, role groups and schemas: their validators share these steps. */
  method HandleOther(req: Request, env: Env, lists: Lists) returns (resp: Response)
    requires WellTyped(req.target) && !req.target.id.kind.PostgresqlKind? && !req.target.id.kind.GrantKind?
             && req.target.key.Some?
    ensures resp.Allowed? <==>
              && req.decodes && Acceptable(req, env) && VaultFine(env) && ConnectionFine(env)
              && Refers(lists.postgresqls, [req.target.key.value[0]])
              && lists.same.Some? && NoClash(lists.same.value, req)
    ensures resp == Errored(400) <==> !req.decodes
    ensures resp == Errored(500) <==>
              && req.decodes && Acceptable(req, env) && VaultFine(env) && ConnectionFine(env)
              && Refers(lists.postgresqls, [req.target.key.value[0]]) && lists.same.None?
    ensures resp.Errored? ==> resp.code in {400, 500}
  {
    if !req.decodes {
      return Errored(400);
    }
    var key := req.target.key.value;
    if key[0] == "" || key[1] == "" || (req.target.id.kind.SchemaKind? && req.owner == "") {
      return Denied("a required field is missing");
    }
    if env.vault && !env.vaultHealthy {
      return Denied("Vault is not available");
    }
    if req.target.id.kind.UserKind? && key[1] in env.excludedUsers {
      return Denied("Username is in the excludelist");
    }
    var postgresql := FindPostgresqlByID(lists.postgresqls, key[0]);
    if postgresql.None? {
      return Denied("PostgreSQL instance does not exist in the cluster");
    }
    if env.vault && !env.connects {
      return Denied("Cannot connect to PostgreSQL instance");
    }
    if lists.same.None? {
      return Errored(500);
    }
    var duplicate := CheckDuplicate(lists.same.value, req);
    if duplicate.Some? {
      return Denied("duplicate");
    }
    resp := Allowed;
  }

  // ------------------------------------------------------------------ API server

  /** A list of all objects of a kind, in any order. */
  ghost predicate IsList(items: seq<Object>, objects: map<Id, Option<seq<string>>>, kind: Kind) {
    && (forall o :: o in items <==> o.id in objects && o.id.kind == kind && objects[o.id] == o.key)
    && (forall i, j :: 0 <= i < j < |items| ==> items[i] != items[j])
  }

  ghost predicate UniqueKeys(objects: map<Id, Option<seq<string>>>) {
    forall a, b ::
      a in objects && b in objects && a.kind == b.kind && objects[a].Some? && objects[a] == objects[b] ==> a == b
  }

  datatype Event = Submit(req: Request, env: Env, answers: seq<bool>) | Delete(id: Id)

  class ApiServer {
    /** All objects of all namespaces, with their keys. */
    var objects: map<Id, Option<seq<string>>>

    ghost predicate Valid()
      reads this
    {
      UniqueKeys(objects)
    }

    constructor ()
      ensures Valid() && objects == map[]
    {
      objects := map[];
    }

    /** A list is in no particular order. */
    method List(kind: Kind) returns (items: seq<Object>)
      ensures IsList(items, objects, kind)
    {
      items := [];
      var rest := objects.Keys;
      while rest != {}
        invariant rest <= objects.Keys
        invariant forall o :: o in items <==> o.id in objects.Keys - rest && o.id.kind == kind && objects[o.id] == o.key
        invariant forall i, j :: 0 <= i < j < |items| ==> items[i] != items[j]
        decreases rest
      {
        var id :| id in rest;
        rest := rest - {id};
        if id.kind == kind {
          items := items + [Object(id, objects[id])];
        }
      }
    }

    method ListOr(kind: Kind, answers: seq<bool>, call: nat) returns (list: Option<seq<Object>>)
      ensures list.Some? ==> IsList(list.value, objects, kind)
    {
      if call < |answers| && !answers[call] {
        return None;
      }
      var items := List(kind);
      list := Some(items);
    }

    /** The validator of the kind, over lists read when the request comes in. */
    method Validate(req: Request, env: Env, answers: seq<bool>) returns (resp: Response)
      requires WellTyped(req.target) && (req.target.key.None? ==> req.target.id.kind.PostgresqlKind?)
      ensures resp.Allowed? ==> Admissible(objects, req)
    {
      var same := ListOr(req.target.id.kind, answers, 0);
      var postgresqls := ListOr(PostgresqlKind, answers, 1);
      var databases := ListOr(DatabaseKind, answers, 2);
      var lists := Lists(postgresqls, databases, same);
      if req.target.id.kind.PostgresqlKind? {
        resp := HandlePostgresql(req, env, same);
      } else if req.target.id.kind.GrantKind? {
        resp := HandleGrant(req, env, lists);
      } else {
        resp := HandleOther(req, env, lists);
      }
      if resp.Allowed? {
        AdmittedHasNoRival(objects, same.value, req);
        if postgresqls.Some? {
          ListedExists(objects, postgresqls.value, PostgresqlKind);
        }
        if databases.Some? {
          ListedExists(objects, databases.value, DatabaseKind);
        }
      }
    }

    /** Validation and, if it is allowed and the API server takes it, the commit. */
    method Submit(req: Request, env: Env, answers: seq<bool>) returns (resp: Response)
      requires Valid() && WellTyped(req.target) && (req.target.key.None? ==> req.target.id.kind.PostgresqlKind?)
      modifies this
      ensures Valid()
      ensures resp.Allowed? ==> Admissible(old(objects), req)
      ensures objects == if resp.Allowed? && (req.isUpdate <==> req.target.id in old(objects))
                         then old(objects)[req.target.id := req.target.key] else old(objects)
    {
      resp := Validate(req, env, answers);
      if resp.Allowed? && (req.isUpdate <==> req.target.id in objects) {
        objects := objects[req.target.id := req.target.key];
      }
    }

    method Delete(id: Id)
      requires Valid()
      modifies this
      ensures Valid() && objects == old(objects) - {id}
    {
      objects := objects - {id};
    }

    /** Any sequence of requests, admitted or not, and deletions: keys stay unique within each kind. */
    method Process(events: seq<Event>)
      requires Valid()
      requires forall e :: e in events && e.Submit? ==>
                WellTyped(e.req.target) && (e.req.target.key.None? ==> e.req.target.id.kind.PostgresqlKind?)
      modifies this
      ensures Valid()
    {
      for i := 0 to |events|
        invariant Valid()
      {
        assert events[i] in events;
        match events[i]
        case Submit(req, env, answers) => var resp := Submit(req, env, answers);
        case Delete(id) => Delete(id);
      }
    }

    /** So every list of the Postgresql objects gives the same object for an ID. */
    method Lookup(postgresqlID: string) returns (found: Option<Object>)
      requires Valid()
      ensures forall items :: IsList(items, objects, PostgresqlKind) ==> Find(items, [postgresqlID]) == found
    {
      var items := List(PostgresqlKind);
      found := FindPostgresqlByID(Some(items), postgresqlID);
      forall other | IsList(other, objects, PostgresqlKind)
        ensures Find(other, [postgresqlID]) == found
      {
        ListsAgree(items, other, objects, PostgresqlKind, [postgresqlID]);
      }
    }
  }

  /**
   What every admitted request satisfies: no other object of its kind has its key, the instance it names exists, and
   the database a grant names exists for that instance.
   */
  ghost predicate Admissible(objects: map<Id, Option<seq<string>>>, req: Request) {
    && Complete(req.target.key) && req.target.key.value != []
    && (forall id :: id in objects && id.kind == req.target.id.kind && objects[id] == req.target.key ==>
          req.isUpdate && id == req.target.id)
    && (!req.target.id.kind.PostgresqlKind? ==> Exists(objects, PostgresqlKind, [req.target.key.value[0]]))
    && (req.target.id.kind.GrantKind? ==>
          |req.target.key.value| == 3
          && Exists(objects, DatabaseKind, [req.target.key.value[0], req.target.key.value[2]]))
  }

  ghost predicate Exists(objects: map<Id, Option<seq<string>>>, kind: Kind, key: seq<string>) {
    exists id :: id in objects && id.kind == kind && objects[id] == Some(key)
  }

  lemma ListedExists(objects: map<Id, Option<seq<string>>>, items: seq<Object>, kind: Kind)
    requires IsList(items, objects, kind)
    ensures forall key :: Refers(Some(items), key) <==> Exists(objects, kind, key)
  {
    forall key | Exists(objects, kind, key)
      ensures Refers(Some(items), key)
    {
      var id :| id in objects && id.kind == kind && objects[id] == Some(key);
      assert Object(id, Some(key)) in items;
    }
  }

  /** An allowed request has a key that no other object of its kind has. */
  lemma AdmittedHasNoRival(objects: map<Id, Option<seq<string>>>, items: seq<Object>, req: Request)
    requires IsList(items, objects, req.target.id.kind) && NoClash(items, req) && req.target.key.Some?
    ensures forall id :: id in objects && id.kind == req.target.id.kind && objects[id] == req.target.key ==>
              req.isUpdate && id == req.target.id
  {
    forall id | id in objects && id.kind == req.target.id.kind && objects[id] == req.target.key
      ensures req.isUpdate && id == req.target.id
    {
      assert Object(id, objects[id]) in items;
    }
  }

  lemma ListsAgree(items: seq<Object>, other: seq<Object>, objects: map<Id, Option<seq<string>>>, kind: Kind,
                   key: seq<string>)
    requires UniqueKeys(objects) && IsList(items, objects, kind) && IsList(other, objects, kind)
    ensures Find(items, key) == Find(other, key)
  {
    var f, g := Find(items, key), Find(other, key);
    if f.Some? {
      assert f.value in other;
      assert g.Some? && f.value.id == g.value.id;
    }
  }
}
