/**
 The text of GRANT and ALTER DEFAULT PRIVILEGES statements: the printer of the operator, and a reader that
 follows the double-quote rule for identifiers (section 4.1.1 of the PostgreSQL documentation).
 */
module GrantSql {
  import opened Basics

  /** The type field of an item; `OtherType` is any text the operator does not know. */
  datatype GrantType =
    | Database
    | Schema
    | Table
    | Sequence
    | Function
    | AllTables
    | AllSequences
    | OtherType(text: string)

  datatype ObjectType = Tables | Sequences | Functions | Types | OtherObjects(text: string)

  datatype GrantItem = GrantItem(kind: GrantType, schema: string, table: string, sequence: string, function_: string,
                                 privileges: seq<string>)

  datatype DefaultPrivilege = DefaultPrivilege(objectType: ObjectType, schema: string, privileges: seq<string>)

  /** What a statement is about, names unquoted. */
  datatype Target =
    | OnDatabase(database: string)
    | OnSchema(schema: string)
    | OnTable(schema: string, name: string)
    | OnSequence(schema: string, name: string)
    | OnFunction(schema: string, name: string)
    | OnAllTables(schema: string)
    | OnAllSequences(schema: string)
    | FutureObjects(objectType: string, schema: string)

  datatype Statement = Statement(privileges: seq<string>, target: Target, role: string)

  // ---------------------------------------------------------------- printing

  /** The identifier quoting of the pq driver cuts a name at its first NUL ... */
  function CutNul(name: string): string {
    if name == "" || name[0] == '\0' then "" else [name[0]] + CutNul(name[1..])
  }

  /** ... and doubles its quotes. */
  function Doubled(s: string): string {
    if s == "" then ""
    else (if s[0] == '"' then "\"\"" else [s[0]]) + Doubled(s[1..])
  }

  function QuoteIdentifier(name: string): string {
    "\"" + Doubled(CutNul(name)) + "\""
  }

  function Join(words: seq<string>): string {
    if words == [] then ""
    else if |words| == 1 then words[0]
    else words[0] + ", " + Join(words[1..])
  }

  /** A statement up to its object, the object, and its end. */
  function GrantText(privileges: string, on: string, entity: string, role: string): string {
    "GRANT" + (" " + (privileges + (" ON " + (on + (" " + (entity + (" TO " + role)))))))
  }

  function Dotted(schema: string, name: string): string {
    schema + "." + name
  }

  /** `escapeGrantFields` and `buildGrantQuery`: None is an error return. `role` is already quoted. */
  function BuildGrantQuery(g: GrantItem, role: string): Option<string> {
    var privileges := Join(g.privileges);
    var schema := QuoteIdentifier(g.schema);
    match g.kind
    case Schema =>
      if g.schema == "" then None else Some(GrantText(privileges, "SCHEMA", schema, role))
    case Table =>
      if g.schema == "" || g.table == "" then None
      else Some(GrantText(privileges, "TABLE", Dotted(schema, QuoteIdentifier(g.table)), role))
    case Sequence =>
      if g.schema == "" || g.sequence == "" then None
      else Some(GrantText(privileges, "SEQUENCE", Dotted(schema, QuoteIdentifier(g.sequence)), role))
    case Function =>
      if g.schema == "" || g.function_ == "" then None
      else Some(GrantText(privileges, "FUNCTION", Dotted(schema, QuoteIdentifier(g.function_)), role))
    case AllTables =>
      if g.schema == "" then None else Some(GrantText(privileges, AllOf("TABLES"), schema, role))
    case AllSequences =>
      if g.schema == "" then None else Some(GrantText(privileges, AllOf("SEQUENCES"), schema, role))
    case _ => None
  }

  function AllOf(plural: string): string {
    "ALL " + plural + " IN SCHEMA"
  }

  /** The statement of a database-level item; `database` and `role` are already quoted. */
  function DatabaseGrantQuery(g: GrantItem, database: string, role: string): string {
    GrantText(Join(g.privileges), "DATABASE", database, role)
  }

  function DefaultPrivilegeQuery(d: DefaultPrivilege, role: string): Option<string> {
    match FutureKeyword(d.objectType)
    case None => None
    case Some(on) =>
      Some("ALTER" + (" DEFAULT PRIVILEGES IN SCHEMA " + FutureText(d.schema, d.privileges, on, role)))
  }

  function FutureText(schema: string, privileges: seq<string>, on: string, role: string): string {
    QuoteIdentifier(schema) + (" GRANT " + (Join(privileges) + (" ON " + (on + (" TO " + role)))))
  }

  function FutureKeyword(objectType: ObjectType): Option<string> {
    match objectType
    case Tables => Some("TABLES")
    case Sequences => Some("SEQUENCES")
    case Functions => Some("FUNCTIONS")
    case Types => Some("TYPES")
    case OtherObjects(_) => None
  }

  // ----------------------------------------------------------------- reading

  function Strip(prefix: string, s: string): Option<string> {
    if prefix <= s then Some(s[|prefix|..]) else None
  }

  predicate Letter(c: char) {
    'A' <= c <= 'Z' || 'a' <= c <= 'z'
  }

  /** A maximal run of letters, and what follows it. */
  function ReadWord(s: string): (string, string) {
    if s == "" || !Letter(s[0]) then ("", s)
    else var (w, rest) := ReadWord(s[1..]); ([s[0]] + w, rest)
  }

  /** The rest of a quoted identifier after its opening quote: a doubled quote stands for one, a single one ends it. */
  function ReadQuoted(s: string): Option<(string, string)> {
    if s == "" then None
    else if s[0] != '"' then
      match ReadQuoted(s[1..])
      case None => None
      case Some((name, rest)) => Some(([s[0]] + name, rest))
    else if |s| >= 2 && s[1] == '"' then
      match ReadQuoted(s[2..])
      case None => None
      case Some((name, rest)) => Some(("\"" + name, rest))
    else Some(("", s[1..]))
  }

  function ReadIdentifier(s: string): Option<(string, string)> {
    if s != "" && s[0] == '"' then ReadQuoted(s[1..]) else None
  }

  function ReadDotted(s: string): Option<(string, string, string)> {
    match ReadIdentifier(s)
    case None => None
    case Some((schema, rest)) =>
      match Strip(".", rest)
      case None => None
      case Some(rest') =>
        match ReadIdentifier(rest')
        case None => None
        case Some((name, rest'')) => Some((schema, name, rest''))
  }

  /** A privilege is one word, or one word followed by the word PRIVILEGES. */
  function ReadPrivilege(s: string): (r: (string, string))
    ensures |r.1| <= |s|
  {
    var (w, rest) := ReadWord(s);
    ReadWordLength(s);
    match Strip(" PRIVILEGES", rest)
    case None => (w, rest)
    case Some(more) => (w + " PRIVILEGES", more)
  }

  /** A list is separated by ", ". */
  function ReadPrivileges(s: string): (r: (seq<string>, string))
    decreases |s|
  {
    var (p, after) := ReadPrivilege(s);
    match Strip(", ", after)
    case None => ([p], after)
    case Some(more) => var (ps, end) := ReadPrivileges(more); ([p] + ps, end)
  }

  lemma ReadWordLength(s: string)
    ensures |ReadWord(s).1| <= |s|
  {
  }

  /** The object clause after " ON ", starting with its keyword. */
  function ReadTarget(s: string): Option<(Target, string)> {
    var (keyword, rest) := ReadWord(s);
    if keyword == "ALL" then
      match Strip(" ", rest)
      case None => None
      case Some(rest') =>
        var (plural, rest'') := ReadWord(rest');
        (match Strip(" IN SCHEMA ", rest'')
         case None => None
         case Some(entity) =>
           match ReadIdentifier(entity)
           case None => None
           case Some((schema, end)) =>
             if plural == "TABLES" then Some((OnAllTables(schema), end))
             else if plural == "SEQUENCES" then Some((OnAllSequences(schema), end))
             else None)
    else
      match Strip(" ", rest)
      case None => None
      case Some(entity) =>
        if keyword == "DATABASE" || keyword == "SCHEMA" then
          match ReadIdentifier(entity)
          case None => None
          case Some((name, end)) => Some((if keyword == "SCHEMA" then OnSchema(name) else OnDatabase(name), end))
        else
          match ReadDotted(entity)
          case None => None
          case Some((schema, name, end)) =>
            if keyword == "TABLE" then Some((OnTable(schema, name), end))
            else if keyword == "SEQUENCE" then Some((OnSequence(schema, name), end))
            else if keyword == "FUNCTION" then Some((OnFunction(schema, name), end))
            else None
  }

  /** " TO " and the role, to the end of the statement. */
  function ReadRole(s: string): Option<string> {
    match Strip(" TO ", s)
    case None => None
    case Some(rest) =>
      match ReadIdentifier(rest)
      case None => None
      case Some((role, end)) => if end == "" then Some(role) else None
  }

  function ReadGrant(s: string): Option<Statement> {
    var (privileges, rest) := ReadPrivileges(s);
    match Strip(" ON ", rest)
    case None => None
    case Some(entity) =>
      match ReadTarget(entity)
      case None => None
      case Some((target, end)) =>
        match ReadRole(end)
        case None => None
        case Some(role) => Some(Statement(privileges, target, role))
  }

  function ReadFuture(s: string): Option<Statement> {
    match ReadIdentifier(s)
    case None => None
    case Some((schema, rest)) =>
      match Strip(" GRANT ", rest)
      case None => None
      case Some(list) =>
        var (privileges, rest') := ReadPrivileges(list);
        match Strip(" ON ", rest')
        case None => None
        case Some(rest'') =>
          var (objects, end) := ReadWord(rest'');
          match ReadRole(end)
          case None => None
          case Some(role) => Some(Statement(privileges, FutureObjects(objects, schema), role))
  }

  function ReadStatement(s: string): Option<Statement> {
    var (verb, rest) := ReadWord(s);
    if verb == "GRANT" then
      match Strip(" ", rest)
      case None => None
      case Some(more) => ReadGrant(more)
    else if verb == "ALTER" then
      match Strip(" DEFAULT PRIVILEGES IN SCHEMA ", rest)
      case None => None
      case Some(more) => ReadFuture(more)
    else None
  }

  // ------------------------------------------------------------- round trips

  predicate IsWord(w: string) {
    w != "" && forall i :: 0 <= i < |w| ==> Letter(w[i])
  }

  /** The privileges the printer is used with: SELECT, USAGE, ... and ALL PRIVILEGES. */
  predicate IsPrivilege(p: string) {
    IsWord(p) || (|p| > 11 && IsWord(p[..|p| - 11]) && p[|p| - 11..] == " PRIVILEGES")
  }

  predicate ArePrivileges(ps: seq<string>) {
    ps != [] && forall i :: 0 <= i < |ps| ==> IsPrivilege(ps[i])
  }

  lemma StripUndoes(prefix: string, s: string)
    ensures Strip(prefix, prefix + s) == Some(s)
  {
    assert (prefix + s)[|prefix|..] == s;
  }

  lemma {:induction false} WordRoundTrip(w: string, rest: string)
    requires forall i :: 0 <= i < |w| ==> Letter(w[i])
    requires rest == "" || !Letter(rest[0])
    ensures ReadWord(w + rest) == (w, rest)
  {
    if w == "" {
      assert w + rest == rest;
    } else {
      assert (w + rest)[1..] == w[1..] + rest;
      WordRoundTrip(w[1..], rest);
      assert w == [w[0]] + w[1..];
    }
  }

  lemma {:induction false} QuotedRoundTrip(name: string, rest: string)
    requires rest == "" || rest[0] != '"'
    ensures ReadQuoted(Doubled(name) + ("\"" + rest)) == Some((name, rest))
  {
    var tail := "\"" + rest;
    if name == "" {
      assert Doubled(name) + tail == tail;
      assert tail[1..] == rest;
    } else {
      var s := Doubled(name) + tail;
      QuotedRoundTrip(name[1..], rest);
      assert name == [name[0]] + name[1..];
      if name[0] == '"' {
        assert s[0] == '"' && s[1] == '"' && s[2..] == Doubled(name[1..]) + tail;
      } else {
        assert s[0] == name[0] && s[1..] == Doubled(name[1..]) + tail;
      }
    }
  }

  /** Reading a quoted name gives the name back, cut at its first NUL. */
  lemma IdentifierRoundTrip(name: string, rest: string)
    requires rest == "" || rest[0] != '"'
    ensures ReadIdentifier(QuoteIdentifier(name) + rest) == Some((CutNul(name), rest))
  {
    QuotedRoundTrip(CutNul(name), rest);
    assert (QuoteIdentifier(name) + rest)[1..] == Doubled(CutNul(name)) + ("\"" + rest);
  }

  lemma {:induction false} CutNulIsIdentity(name: string)
    requires '\0' !in name
    ensures CutNul(name) == name
  {
    if name != "" {
      CutNulIsIdentity(name[1..]);
      assert name == [name[0]] + name[1..];
    }
  }

  /** Two names are quoted alike exactly when they agree up to their first NUL. */
  lemma QuotingCollides(a: string, b: string)
    ensures QuoteIdentifier(a) == QuoteIdentifier(b) <==> CutNul(a) == CutNul(b)
  {
    IdentifierRoundTrip(a, "");
    IdentifierRoundTrip(b, "");
    assert QuoteIdentifier(a) + "" == QuoteIdentifier(a) && QuoteIdentifier(b) + "" == QuoteIdentifier(b);
  }

  lemma DottedRoundTrip(schema: string, name: string, rest: string)
    requires rest == "" || rest[0] != '"'
    ensures ReadDotted(Dotted(QuoteIdentifier(schema), QuoteIdentifier(name)) + rest)
            == Some((CutNul(schema), CutNul(name), rest))
  {
    var tail := QuoteIdentifier(name) + rest;
    assert Dotted(QuoteIdentifier(schema), QuoteIdentifier(name)) + rest == QuoteIdentifier(schema) + ("." + tail);
    IdentifierRoundTrip(schema, "." + tail);
    StripUndoes(".", tail);
    IdentifierRoundTrip(name, rest);
  }

  /** One privilege followed by anything that continues neither the word nor the privilege. */
  lemma PrivilegeRoundTrip(p: string, rest: string)
    requires IsPrivilege(p)
    requires rest == "" || !Letter(rest[0])
    requires !(" PRIVILEGES" <= rest)
    ensures ReadPrivilege(p + rest) == (p, rest)
  {
    if IsWord(p) {
      WordRoundTrip(p, rest);
    } else {
      hide ReadWord, Strip, Letter;
      var w := p[..|p| - 11];
      LongPrivilegeRoundTrip(w, rest);
      assert p == w + " PRIVILEGES";
    }
  }

  lemma LongPrivilegeRoundTrip(w: string, rest: string)
    requires IsWord(w)
    ensures ReadWord((w + " PRIVILEGES") + rest) == (w, " PRIVILEGES" + rest)
    ensures Strip(" PRIVILEGES", " PRIVILEGES" + rest) == Some(rest)
  {
    assert (w + " PRIVILEGES") + rest == w + (" PRIVILEGES" + rest);
    WordRoundTrip(w, " PRIVILEGES" + rest);
    StripUndoes(" PRIVILEGES", rest);
  }

  lemma SpaceAndCommaEndWords()
    ensures !Letter(' ') && !Letter(',')
  {
  }

  lemma {:induction false} PrivilegesRoundTrip(ps: seq<string>, rest: string)
    requires ArePrivileges(ps)
    requires " ON " <= rest
    ensures ReadPrivileges(Join(ps) + rest) == (ps, rest)
  {
    hide ReadPrivilege, Letter, IsPrivilege;
    assert rest[0] == ' ' && rest[1] == 'O' && " PRIVILEGES"[1] == 'P' && ", "[0] == ',';
    SpaceAndCommaEndWords();
    if |ps| == 1 {
      PrivilegeRoundTrip(ps[0], rest);
      assert ps == [ps[0]];
    } else {
      var more := Join(ps[1..]) + rest;
      assert Join(ps) + rest == ps[0] + (", " + more);
      assert (", " + more)[0] == ',' && " PRIVILEGES"[0] == ' ';
      PrivilegeRoundTrip(ps[0], ", " + more);
      StripUndoes(", ", more);
      PrivilegesRoundTrip(ps[1..], rest);
      assert ps == [ps[0]] + ps[1..];
    }
  }

  lemma RoleRoundTrip(role: string)
    ensures ReadRole(" TO " + QuoteIdentifier(role)) == Some(CutNul(role))
  {
    StripUndoes(" TO ", QuoteIdentifier(role));
    IdentifierRoundTrip(role, "");
    assert QuoteIdentifier(role) + "" == QuoteIdentifier(role);
  }

  /** The common frame of every GRANT: what the reader makes of the object clause is what it makes of the statement. */
  lemma FrameRoundTrip(privileges: seq<string>, on: string, entity: string, role: string, target: Target)
    requires ArePrivileges(privileges)
    requires ReadTarget(on + (" " + (entity + (" TO " + QuoteIdentifier(role)))))
             == Some((target, " TO " + QuoteIdentifier(role)))
    ensures ReadStatement(GrantText(Join(privileges), on, entity, QuoteIdentifier(role)))
            == Some(Statement(privileges, target, CutNul(role)))
  {
    var clause := on + (" " + (entity + (" TO " + QuoteIdentifier(role))));
    var more := Join(privileges) + (" ON " + clause);
    WordRoundTrip("GRANT", " " + more);
    StripUndoes(" ", more);
    PrivilegesRoundTrip(privileges, " ON " + clause);
    StripUndoes(" ON ", clause);
    RoleRoundTrip(role);
  }

  /** An object clause of the form KEYWORD "name". */
  lemma NamedTarget(on: string, name: string, end: string)
    requires on == "DATABASE" || on == "SCHEMA"
    requires end == "" || end[0] != '"'
    ensures ReadTarget(on + (" " + (QuoteIdentifier(name) + end)))
            == Some((if on == "SCHEMA" then OnSchema(CutNul(name)) else OnDatabase(CutNul(name)), end))
  {
    WordRoundTrip(on, " " + (QuoteIdentifier(name) + end));
    StripUndoes(" ", QuoteIdentifier(name) + end);
    IdentifierRoundTrip(name, end);
    assert on[0] != 'A';
  }

  /** An object clause of the form KEYWORD "schema"."name". */
  lemma DottedTarget(on: string, schema: string, name: string, end: string)
    requires on == "TABLE" || on == "SEQUENCE" || on == "FUNCTION"
    requires end == "" || end[0] != '"'
    ensures ReadTarget(on + (" " + (Dotted(QuoteIdentifier(schema), QuoteIdentifier(name)) + end)))
            == Some((if on == "TABLE" then OnTable(CutNul(schema), CutNul(name))
                     else if on == "SEQUENCE" then OnSequence(CutNul(schema), CutNul(name))
                     else OnFunction(CutNul(schema), CutNul(name)), end))
  {
    var entity := Dotted(QuoteIdentifier(schema), QuoteIdentifier(name)) + end;
    WordRoundTrip(on, " " + entity);
    StripUndoes(" ", entity);
    DottedRoundTrip(schema, name, end);
    assert on[0] != 'A' && on[0] != 'D' && (on[0] == 'S' ==> on[1] != 'C');
  }

  /** An object clause of the form ALL PLURAL IN SCHEMA "schema". */
  lemma AllTarget(plural: string, schema: string, end: string)
    requires plural == "TABLES" || plural == "SEQUENCES"
    requires end == "" || end[0] != '"'
    ensures ReadTarget(AllOf(plural) + (" " + (QuoteIdentifier(schema) + end)))
            == Some((if plural == "TABLES" then OnAllTables(CutNul(schema)) else OnAllSequences(CutNul(schema)), end))
  {
    var entity := QuoteIdentifier(schema) + end;
    var inSchema := " IN SCHEMA " + entity;
    var s := AllOf(plural) + (" " + entity);
    assert s == "ALL" + (" " + (plural + inSchema));
    WordRoundTrip("ALL", " " + (plural + inSchema));
    StripUndoes(" ", plural + inSchema);
    WordRoundTrip(plural, inSchema);
    StripUndoes(" IN SCHEMA ", entity);
    IdentifierRoundTrip(schema, end);
  }

  predicate IsOther(kind: GrantType) {
    !kind.Database? && !kind.OtherType?
  }

  /** The object an item names, as the server sees the names. */
  function TargetOf(g: GrantItem): Target
    requires IsOther(g.kind)
  {
    var schema := CutNul(g.schema);
    if g.kind.Schema? then OnSchema(schema)
    else if g.kind.Table? then OnTable(schema, CutNul(g.table))
    else if g.kind.Sequence? then OnSequence(schema, CutNul(g.sequence))
    else if g.kind.Function? then OnFunction(schema, CutNul(g.function_))
    else if g.kind.AllTables? then OnAllTables(schema)
    else OnAllSequences(schema)
  }

  /** The fields the item's type needs are present. */
  predicate Complete(g: GrantItem) {
    && IsOther(g.kind)
    && g.schema != ""
    && (g.kind.Table? ==> g.table != "")
    && (g.kind.Sequence? ==> g.sequence != "")
    && (g.kind.Function? ==> g.function_ != "")
  }

  lemma SchemaGrant(privileges: seq<string>, schema: string, role: string)
    requires ArePrivileges(privileges)
    ensures ReadStatement(GrantText(Join(privileges), "SCHEMA", QuoteIdentifier(schema), QuoteIdentifier(role)))
            == Some(Statement(privileges, OnSchema(CutNul(schema)), CutNul(role)))
  {
    NamedTarget("SCHEMA", schema, " TO " + QuoteIdentifier(role));
    FrameRoundTrip(privileges, "SCHEMA", QuoteIdentifier(schema), role, OnSchema(CutNul(schema)));
  }

  lemma DottedGrant(privileges: seq<string>, on: string, schema: string, name: string, role: string)
    requires ArePrivileges(privileges)
    requires on == "TABLE" || on == "SEQUENCE" || on == "FUNCTION"
    ensures ReadStatement(GrantText(Join(privileges), on, Dotted(QuoteIdentifier(schema), QuoteIdentifier(name)),
                                    QuoteIdentifier(role)))
            == Some(Statement(privileges, if on == "TABLE" then OnTable(CutNul(schema), CutNul(name))
                                          else if on == "SEQUENCE" then OnSequence(CutNul(schema), CutNul(name))
                                          else OnFunction(CutNul(schema), CutNul(name)), CutNul(role)))
  {
    var target := if on == "TABLE" then OnTable(CutNul(schema), CutNul(name))
                  else if on == "SEQUENCE" then OnSequence(CutNul(schema), CutNul(name))
                  else OnFunction(CutNul(schema), CutNul(name));
    DottedTarget(on, schema, name, " TO " + QuoteIdentifier(role));
    FrameRoundTrip(privileges, on, Dotted(QuoteIdentifier(schema), QuoteIdentifier(name)), role, target);
  }

  lemma AllGrant(privileges: seq<string>, plural: string, schema: string, role: string)
    requires ArePrivileges(privileges)
    requires plural == "TABLES" || plural == "SEQUENCES"
    ensures ReadStatement(GrantText(Join(privileges), AllOf(plural), QuoteIdentifier(schema),
                                    QuoteIdentifier(role)))
            == Some(Statement(privileges, if plural == "TABLES" then OnAllTables(CutNul(schema))
                                          else OnAllSequences(CutNul(schema)), CutNul(role)))
  {
    var target := if plural == "TABLES" then OnAllTables(CutNul(schema)) else OnAllSequences(CutNul(schema));
    AllTarget(plural, schema, " TO " + QuoteIdentifier(role));
    FrameRoundTrip(privileges, AllOf(plural), QuoteIdentifier(schema), role, target);
  }

  /** The printer succeeds exactly on complete items ... */
  lemma PrinterSucceedsIff(g: GrantItem, role: string)
    ensures BuildGrantQuery(g, role).Some? <==> Complete(g)
  {
  }

  /** ... and its text is read back as the item's own object, for any names whatsoever. */
  lemma GrantRoundTrip(g: GrantItem, role: string)
    requires Complete(g) && ArePrivileges(g.privileges)
    ensures BuildGrantQuery(g, QuoteIdentifier(role)).Some?
    ensures ReadStatement(BuildGrantQuery(g, QuoteIdentifier(role)).value)
            == Some(Statement(g.privileges, TargetOf(g), CutNul(role)))
  {
    if g.kind.Schema? {
      SchemaGrant(g.privileges, g.schema, role);
    } else if g.kind.Table? {
      DottedGrant(g.privileges, "TABLE", g.schema, g.table, role);
    } else if g.kind.Sequence? {
      DottedGrant(g.privileges, "SEQUENCE", g.schema, g.sequence, role);
    } else if g.kind.Function? {
      DottedGrant(g.privileges, "FUNCTION", g.schema, g.function_, role);
    } else if g.kind.AllTables? {
      AllGrant(g.privileges, "TABLES", g.schema, role);
    } else {
      AllGrant(g.privileges, "SEQUENCES", g.schema, role);
    }
  }

  lemma DatabaseGrantRoundTrip(g: GrantItem, database: string, role: string)
    requires ArePrivileges(g.privileges)
    ensures ReadStatement(DatabaseGrantQuery(g, QuoteIdentifier(database), QuoteIdentifier(role)))
            == Some(Statement(g.privileges, OnDatabase(CutNul(database)), CutNul(role)))
  {
    NamedTarget("DATABASE", database, " TO " + QuoteIdentifier(role));
    FrameRoundTrip(g.privileges, "DATABASE", QuoteIdentifier(database), role, OnDatabase(CutNul(database)));
  }

  lemma DefaultPrivilegeRoundTrip(d: DefaultPrivilege, role: string)
    ensures DefaultPrivilegeQuery(d, QuoteIdentifier(role)).Some? <==> FutureKeyword(d.objectType).Some?
    ensures FutureKeyword(d.objectType).Some? && ArePrivileges(d.privileges) ==>
              ReadStatement(DefaultPrivilegeQuery(d, QuoteIdentifier(role)).value)
              == Some(Statement(d.privileges, FutureObjects(FutureKeyword(d.objectType).value, CutNul(d.schema)),
                                CutNul(role)))
  {
    if FutureKeyword(d.objectType).Some? && ArePrivileges(d.privileges) {
      var on := FutureKeyword(d.objectType).value;
      FutureBodyRoundTrip(d.privileges, on, d.schema, role);
      AlterRoundTrip(FutureText(d.schema, d.privileges, on, QuoteIdentifier(role)));
    }
  }

  lemma AlterRoundTrip(body: string)
    ensures ReadStatement("ALTER" + (" DEFAULT PRIVILEGES IN SCHEMA " + body)) == ReadFuture(body)
  {
    WordRoundTrip("ALTER", " DEFAULT PRIVILEGES IN SCHEMA " + body);
    StripUndoes(" DEFAULT PRIVILEGES IN SCHEMA ", body);
    assert "ALTER"[0] != "GRANT"[0];
  }

  lemma FutureBodyRoundTrip(privileges: seq<string>, on: string, schema: string, role: string)
    requires ArePrivileges(privileges) && IsWord(on)
    ensures ReadFuture(FutureText(schema, privileges, on, QuoteIdentifier(role)))
            == Some(Statement(privileges, FutureObjects(on, CutNul(schema)), CutNul(role)))
  {
    var end := " TO " + QuoteIdentifier(role);
    var list := Join(privileges) + (" ON " + (on + end));
    IdentifierRoundTrip(schema, " GRANT " + list);
    StripUndoes(" GRANT ", list);
    PrivilegesRoundTrip(privileges, " ON " + (on + end));
    StripUndoes(" ON ", on + end);
    WordRoundTrip(on, end);
    RoleRoundTrip(role);
  }

  /** Distinct grants never print the same statement: the text fixes the privileges, the object and the role. */
  lemma PrinterIsInjective(g: GrantItem, role: string, h: GrantItem, role': string)
    requires Complete(g) && Complete(h) && ArePrivileges(g.privileges) && ArePrivileges(h.privileges)
    requires BuildGrantQuery(g, QuoteIdentifier(role)) == BuildGrantQuery(h, QuoteIdentifier(role'))
    ensures g.kind == h.kind && g.privileges == h.privileges && TargetOf(g) == TargetOf(h)
            && CutNul(role) == CutNul(role')
  {
    GrantRoundTrip(g, role);
    GrantRoundTrip(h, role');
  }
}
