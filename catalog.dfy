/**
 * The catalog helper (class `Database` of the wrapper): the database name
 * carried by a connection string, the listing of databases, and creating a
 * database together with a user that may use it.
 */
module Catalog {
  import opened Php
  import opened Driver

  const DbnameKey := "dbname="
  const NoDatabaseName := "Could not match database name from dsn"
  const ShowDatabases := "SHOW DATABASES"

  // ---------------------------------------------------------------------------
  // The database name: the pattern /dbname=(\w+);/ searched in the dsn
  // ---------------------------------------------------------------------------

  /** `\w` of the pattern: an ASCII letter, digit or underscore. */
  predicate IsWordChar(c: char) {
    'a' <= c <= 'z' || 'A' <= c <= 'Z' || '0' <= c <= '9' || c == '_'
  }

  predicate AllWordChars(s: string) {
    forall i :: 0 <= i < |s| ==> IsWordChar(s[i])
  }

  /**
   * The pattern matches `dsn` at position `p` capturing `name`: the text from
   * `p` on is "dbname=", then `name` (one or more word characters), then ";".
   */
  predicate MatchesAt(dsn: string, p: nat, name: string) {
    && |name| >= 1
    && AllWordChars(name)
    && p + |DbnameKey| + |name| + 1 <= |dsn|
    && dsn[p .. p + |DbnameKey| + |name| + 1] == DbnameKey + name + ";"
  }

  /** End of the run of word characters that starts at `i` (what a greedy `\w+` consumes). */
  function WordRunEnd(s: string, i: nat): (e: nat)
    requires i <= |s|
    ensures i <= e <= |s|
    ensures forall j :: i <= j < e ==> IsWordChar(s[j])
    ensures e == |s| || !IsWordChar(s[e])
    decreases |s| - i
  {
    if i < |s| && IsWordChar(s[i]) then WordRunEnd(s, i + 1) else i
  }

  /** The capture of the pattern when its match is attempted at position `p`. */
  function CaptureAt(dsn: string, p: nat): (r: Option<string>)
    requires p <= |dsn|
    ensures r.Some? ==> MatchesAt(dsn, p, r.value)
    ensures r.None? ==> forall name :: !MatchesAt(dsn, p, name)
  {
    var k := p + |DbnameKey|;
    if k <= |dsn| && dsn[p..k] == DbnameKey then
      var e := WordRunEnd(dsn, k);
      if k < e < |dsn| && dsn[e] == ';' then
        assert dsn[p..e + 1] == DbnameKey + dsn[k..e] + ";";
        Some(dsn[k..e])
      else
        assert forall name :: !MatchesAt(dsn, p, name) by {
          forall name | MatchesAt(dsn, p, name) ensures false {
            RunEndsAtSemicolon(dsn, p, name);
          }
        }
        None
    else
      assert forall name :: !MatchesAt(dsn, p, name) by {
        forall name | MatchesAt(dsn, p, name) ensures false {
          RunEndsAtSemicolon(dsn, p, name);
        }
      }
      None
  }

  /** A match at `p` fixes where the greedy run of word characters after "dbname=" ends. */
  lemma RunEndsAtSemicolon(dsn: string, p: nat, name: string)
    requires MatchesAt(dsn, p, name)
    ensures WordRunEnd(dsn, p + |DbnameKey|) == p + |DbnameKey| + |name|
    ensures dsn[p .. p + |DbnameKey|] == DbnameKey
    ensures dsn[p + |DbnameKey| + |name|] == ';'
  {
    var k := p + |DbnameKey|;
    var m := dsn[p .. k + |name| + 1];
    assert m == DbnameKey + name + ";";
    forall j | k <= j < k + |name| ensures IsWordChar(dsn[j]) {
      assert dsn[j] == m[j - p] == name[j - k];
    }
    assert dsn[k + |name|] == m[|DbnameKey| + |name|] == ';';
    assert dsn[p..k] == m[..|DbnameKey|];
  }

  /** The leftmost match at or after position `p`, as (position, capture). */
  function FirstMatch(dsn: string, p: nat): (r: Option<(nat, string)>)
    requires p <= |dsn|
    ensures r.Some? ==> p <= r.value.0 && MatchesAt(dsn, r.value.0, r.value.1)
    ensures r.Some? ==> forall q: nat, name :: p <= q < r.value.0 ==> !MatchesAt(dsn, q, name)
    ensures r.None? ==> forall q: nat, name :: p <= q ==> !MatchesAt(dsn, q, name)
    decreases |dsn| - p
  {
    match CaptureAt(dsn, p)
    case Some(name) => Some((p, name))
    case None => if p == |dsn| then None else FirstMatch(dsn, p + 1)
  }

  /**
   * `Database::name($dsn)`: the capture of the leftmost match of
   * /dbname=(\w+);/ in `dsn`, or a RuntimeException when there is none.
   */
  function Name(dsn: string): (r: Result<string>)
    ensures r.Ok? ==> exists p: nat :: MatchesAt(dsn, p, r.value)
                                      && forall q: nat, name :: q < p ==> !MatchesAt(dsn, q, name)
    ensures r.Err? ==> r.error == RuntimeException(NoDatabaseName)
                       && forall p: nat, name :: !MatchesAt(dsn, p, name)
  {
    match FirstMatch(dsn, 0)
    case Some((_, name)) => Ok(name)
    case None => Err(RuntimeException(NoDatabaseName))
  }

  /** At a given position at most one name can be captured: the ";" ends it. */
  lemma {:induction false} CaptureIsDetermined(dsn: string, p: nat, a: string, b: string)
    requires MatchesAt(dsn, p, a) && MatchesAt(dsn, p, b)
    ensures a == b
  {
    RunEndsAtSemicolon(dsn, p, a);
    RunEndsAtSemicolon(dsn, p, b);
    var k := p + |DbnameKey|;
    assert a == dsn[p .. k + |a| + 1][|DbnameKey| .. |DbnameKey| + |a|] == dsn[k .. k + |a|];
    assert b == dsn[p .. k + |b| + 1][|DbnameKey| .. |DbnameKey| + |b|] == dsn[k .. k + |b|];
  }

  /** The name found is the leftmost one, and it is the captured name of any match at that position. */
  lemma NameIsLeftmostMatch(dsn: string, p: nat, name: string)
    requires MatchesAt(dsn, p, name)
    requires forall q: nat, other :: q < p ==> !MatchesAt(dsn, q, other)
    ensures Name(dsn) == Ok(name)
  {
    var r := Name(dsn);
    assert r.Ok?;
    var p': nat :| MatchesAt(dsn, p', r.value) && forall q: nat, other :: q < p' ==> !MatchesAt(dsn, q, other);
    assert p' == p;
    CaptureIsDetermined(dsn, p, name, r.value);
  }

  /** Without any ";" in the dsn the name cannot be found. */
  lemma NoSemicolonNoName(dsn: string)
    requires ';' !in dsn
    ensures Name(dsn) == Err(RuntimeException(NoDatabaseName))
  {
    var r := Name(dsn);
    if r.Ok? {
      var p: nat :| MatchesAt(dsn, p, r.value);
      RunEndsAtSemicolon(dsn, p, r.value);
      assert false;
    }
  }

  /** No match starts at a character other than the "d" of "dbname=". */
  lemma NoMatchOffKey(dsn: string, q: nat)
    requires q < |dsn| && dsn[q] != 'd'
    ensures forall name :: !MatchesAt(dsn, q, name)
  {
  }

  /** The connection string of the package's own test yields "test". */
  lemma NameOfTestDsn()
    ensures Name("mysql:dbname=test;host=127.0.0.1") == Ok("test")
  {
    var d := "mysql:dbname=test;host=127.0.0.1";
    assert forall i | 0 <= i < 12 :: d[6 + i] == "dbname=test;"[i];
    assert d[6..18] == "dbname=test;" == DbnameKey + "test" + ";";
    NoMatchOffKey(d, 0);
    NoMatchOffKey(d, 1);
    NoMatchOffKey(d, 2);
    NoMatchOffKey(d, 3);
    NoMatchOffKey(d, 4);
    NoMatchOffKey(d, 5);
    NameIsLeftmostMatch(d, 6, "test");
  }

  /** The pattern is unanchored: "dbname=" may be the tail of a longer key. */
  lemma NameIsUnanchored()
    ensures Name("mydbname=x;") == Ok("x")
  {
    var d := "mydbname=x;";
    assert d[2..11] == "dbname=x;" == DbnameKey + "x" + ";";
    NoMatchOffKey(d, 0);
    NoMatchOffKey(d, 1);
    NameIsLeftmostMatch(d, 2, "x");
  }

  /** No dbname at all, and a dbname with no ";" after it, both fail. */
  lemma NameMissing()
    ensures Name("mysql:host=127.0.0.1") == Err(RuntimeException(NoDatabaseName))
    ensures Name("mysql:dbname=test") == Err(RuntimeException(NoDatabaseName))
  {
    NoSemicolonNoName("mysql:host=127.0.0.1");
    NoSemicolonNoName("mysql:dbname=test");
  }

  // ---------------------------------------------------------------------------
  // Listing databases and creating one
  // ---------------------------------------------------------------------------

  /**
   * What `Database::all()` collects from a cursor whose first-column values
   * are `rows`: the longest prefix of values PHP reads as true. End of
   * results, "" and "0" all stop the collection.
   */
  function Listed(rows: seq<string>): (names: seq<string>)
    ensures |names| <= |rows| && names == rows[..|names|]
    ensures forall i :: 0 <= i < |names| ==> !FalsyString(names[i])
    ensures |names| < |rows| ==> FalsyString(rows[|names|])
  {
    if rows == [] || FalsyString(rows[0]) then []
    else [rows[0]] + Listed(rows[1..])
  }

  /** A database called "" or "0" never appears in the listing, so creating it is never refused. */
  lemma FalsyNameNeverListed(rows: seq<string>, name: string)
    requires FalsyString(name)
    ensures name !in Listed(rows)
  {
  }

  /** The compound statement `create` hands to `exec`, with its line breaks and indentation. */
  function CreateStatement(name: string, username: string, password: string): string {
    Indented("\n                ",
             [CreateDatabaseClause(name), CreateUserClause(username, password), GrantClause(name, username), FlushClause],
             "\n            ")
  }

  /** Each of `lines` preceded by the line break and indentation `nl`, then `tail`. */
  function Indented(nl: string, lines: seq<string>, tail: string): string {
    if lines == [] then tail else nl + lines[0] + Indented(nl, lines[1..], tail)
  }

  function CreateDatabaseClause(name: string): string {
    "CREATE DATABASE `" + name + "`;"
  }

  function CreateUserClause(username: string, password: string): string {
    "CREATE USER '" + username + "'@'%' IDENTIFIED BY '" + password + "';"
  }

  function GrantClause(name: string, username: string): string {
    "GRANT ALL ON `" + name + "`.* TO '" + username + "'@'%';"
  }

  const FlushClause := "FLUSH PRIVILEGES;"

  /** `parts` occur in `s` one after the other, without overlapping. */
  ghost predicate ContainsInOrder(s: string, parts: seq<string>)
    decreases |parts|
  {
    parts == [] ||
    exists i: nat :: OccursAt(s, i, parts[0]) && ContainsInOrder(s[i + |parts[0]|..], parts[1..])
  }

  /** `part` occurs in `s` at position `i`. */
  predicate OccursAt(s: string, i: nat, part: string) {
    i + |part| <= |s| && s[i .. i + |part|] == part
  }

  lemma {:induction false} ContainsInOrderPrepend(before: string, part: string, rest: string, parts: seq<string>)
    requires ContainsInOrder(rest, parts)
    ensures ContainsInOrder(before + part + rest, [part] + parts)
  {
    var s := before + part + rest;
    var i := |before|;
    assert OccursAt(s, i, part);
    assert s[i + |part|..] == rest;
    assert ([part] + parts)[1..] == parts;
    assert ContainsInOrder(s[i + |([part] + parts)[0]|..], ([part] + parts)[1..]);
  }

  /** The indented lines all appear, in their order. */
  lemma {:induction false} IndentedInOrder(nl: string, lines: seq<string>, tail: string)
    ensures ContainsInOrder(Indented(nl, lines, tail), lines)
  {
    if lines != [] {
      IndentedInOrder(nl, lines[1..], tail);
      ContainsInOrderPrepend(nl, lines[0], Indented(nl, lines[1..], tail), lines[1..]);
      assert [lines[0]] + lines[1..] == lines;
    }
  }

  /** The statement creates the database, then the user, grants it the database, and flushes privileges, in that order. */
  lemma {:induction false} CreateStatementInOrder(name: string, username: string, password: string)
    ensures ContainsInOrder(CreateStatement(name, username, password),
                            [CreateDatabaseClause(name), CreateUserClause(username, password),
                             GrantClause(name, username), FlushClause])
  {
    IndentedInOrder("\n                ",
                    [CreateDatabaseClause(name), CreateUserClause(username, password), GrantClause(name, username), FlushClause],
                    "\n            ");
  }

  /** `Database`: catalog operations over the connection it was given. */
  class Database {
    const pdo: Connection

    constructor (pdo: Connection)
      ensures this.pdo == pdo
    {
      this.pdo := pdo;
    }

    /**
     * `Database::all()`: issues SHOW DATABASES and collects first-column
     * values until the first one PHP reads as false.
     */
    method All() returns (names: seq<string>)
      requires pdo.Valid()
      modifies pdo
      ensures pdo.Valid()
      ensures pdo.log == old(pdo.log) + [Query(ShowDatabases)]
      ensures names == Listed(pdo.column(old(pdo.issued)))
    {
      var statement := pdo.Query(ShowDatabases);
      var rows := pdo.column(statement);
      names := [];
      var i := 0;
      var row := if i < |rows| then Str(rows[i]) else Bool(false);
      while !Empty(Some(row))
        invariant 0 <= i <= |rows|
        invariant names == rows[..i]
        invariant forall j :: 0 <= j < i ==> !FalsyString(rows[j])
        invariant row == if i < |rows| then Str(rows[i]) else Bool(false)
        decreases |rows| - i
      {
        names := names + [rows[i]];
        i := i + 1;
        row := if i < |rows| then Str(rows[i]) else Bool(false);
      }
      var listed := Listed(rows);
      assert i == |listed|;
    }

    /**
     * `Database::create($name, $username, $password)`: nothing more is issued
     * when `name` is already listed; otherwise one compound statement creates
     * the database and a user granted all privileges on it, and the result
     * is whether the driver reported a non-zero count.
     */
    method Create(name: string, username: Option<string>, password: Option<string>) returns (created: bool)
      requires pdo.Valid()
      modifies pdo
      ensures pdo.Valid()
      ensures name in Listed(pdo.column(old(pdo.issued))) ==>
                !created && pdo.log == old(pdo.log) + [Query(ShowDatabases)]
      ensures name !in Listed(pdo.column(old(pdo.issued))) ==>
                && pdo.log == old(pdo.log) + [Query(ShowDatabases),
                                              Exec(CreateStatement(name, Interpolate(username), Interpolate(password)))]
                && created == (pdo.execResult(old(pdo.issued) + 1) != 0)
    {
      var names := All();
      if name !in names {
        var result := pdo.Exec(CreateStatement(name, Interpolate(username), Interpolate(password)));
        return result != 0;
      }
      return false;
    }
  }
}
