/**
 * The connection facade (class `PDO` of the wrapper, which extends the native
 * `\PDO`): construction with merged options and a default SQLite dsn, the
 * `run`/`multi` execution helpers, the destination of an export, the guard of
 * an import, and the message for an undefined method.
 *
 * The native connection the class inherits from is the `Driver.Connection`
 * held in `conn`; every operation the wrapper issues shows up in its log.
 */
module Wrapper {
  import opened Php
  import opened Driver
  import Catalog

  // ---------------------------------------------------------------------------
  // Construction: options and the default dsn
  // ---------------------------------------------------------------------------

  // The `\PDO` constants the defaults use; `false` is written 0.
  const ATTR_ERRMODE := 3
  const ERRMODE_WARNING := 1
  const ERRMODE_EXCEPTION := 2
  const ATTR_DEFAULT_FETCH_MODE := 19
  const FETCH_ASSOC := 2
  const ATTR_EMULATE_PREPARES := 20

  /** The options every connection gets unless the caller says otherwise. */
  const DefaultOptions: map<int, int> :=
    map[ATTR_ERRMODE := ERRMODE_EXCEPTION, ATTR_DEFAULT_FETCH_MODE := FETCH_ASSOC, ATTR_EMULATE_PREPARES := 0]

  /**
   * PHP's array union `$given + $defaults`: every key of either side, with
   * the left side's value where both have one.
   */
  function MergeOptions(given: map<int, int>, defaults: map<int, int>): (merged: map<int, int>)
    ensures merged.Keys == given.Keys + defaults.Keys
    ensures forall k :: k in given ==> merged[k] == given[k]
    ensures forall k :: k in defaults && k !in given ==> merged[k] == defaults[k]
  {
    map k | k in given.Keys + defaults.Keys :: if k in given then given[k] else defaults[k]
  }

  /** A caller's error mode survives; the other two defaults are filled in. */
  lemma CallerErrmodeWins()
    ensures MergeOptions(map[ATTR_ERRMODE := ERRMODE_WARNING], DefaultOptions)
         == map[ATTR_ERRMODE := ERRMODE_WARNING, ATTR_DEFAULT_FETCH_MODE := FETCH_ASSOC, ATTR_EMULATE_PREPARES := 0]
  {
    var merged := MergeOptions(map[ATTR_ERRMODE := ERRMODE_WARNING], DefaultOptions);
    var expected := map[ATTR_ERRMODE := ERRMODE_WARNING, ATTR_DEFAULT_FETCH_MODE := FETCH_ASSOC, ATTR_EMULATE_PREPARES := 0];
    assert merged.Keys == expected.Keys;
    assert merged[ATTR_ERRMODE] == expected[ATTR_ERRMODE];
  }

  /** The dsn used when none is given: an SQLite file in the temporary directory. */
  function DefaultDsn(tmpDir: string): string {
    "sqlite:/" + tmpDir + "/PDOWrapper.db"
  }

  /** The default dsn names no database (unless the temporary directory's path holds a ";"). */
  lemma DefaultDsnHasNoDatabaseName(tmpDir: string)
    requires ';' !in tmpDir
    ensures Catalog.Name(DefaultDsn(tmpDir)) == Err(RuntimeException(Catalog.NoDatabaseName))
  {
    var head, tail := "sqlite:/", "/PDOWrapper.db";
    assert forall i | 0 <= i < |head| :: head[i] != ';';
    assert forall i | 0 <= i < |tail| :: tail[i] != ';';
    assert ';' !in head + tmpDir + tail;
    Catalog.NoSemicolonNoName(DefaultDsn(tmpDir));
  }

  // ---------------------------------------------------------------------------
  // run() and multi()
  // ---------------------------------------------------------------------------

  const FirstArgumentEmpty := "1st argument cannot be empty"
  const NotArrayOfArrays := "2nd argument must be an array of arrays"

  /** What `run` returns: a statement (the log position of its query or prepare), or a row count. */
  datatype Outcome = Statement(handle: nat) | RowCount(count: int)

  /** `multi`'s guard on its values: `$values[0]` is present, an array, and not empty. */
  predicate BatchShaped(values: seq<Entry>) {
    var first := Lookup(values, IntKey(0));
    !Empty(first) && IsArray(first)
  }

  /** A value `execute()` accepts as its parameter set: an array, or null. */
  predicate Bindable(v: Value) {
    v.Arr? || v.Null?
  }

  /** The index of the first parameter set `execute()` rejects, or the length if there is none. */
  function FirstUnbindable(sets: seq<Entry>): (k: nat)
    ensures k <= |sets|
    ensures forall i :: 0 <= i < k ==> Bindable(sets[i].value)
    ensures k < |sets| ==> !Bindable(sets[k].value)
  {
    if sets == [] || !Bindable(sets[0].value) then 0
    else 1 + FirstUnbindable(sets[1..])
  }

  /** The first rejected parameter set is the one after a run of accepted ones. */
  lemma FirstUnbindableAt(sets: seq<Entry>, k: nat)
    requires k <= |sets|
    requires forall i :: 0 <= i < k ==> Bindable(sets[i].value)
    requires k < |sets| ==> !Bindable(sets[k].value)
    ensures FirstUnbindable(sets) == k
  {
  }

  /** One execute of `statement` per parameter set, in list order. */
  function Executes(statement: nat, sets: seq<Entry>): (ops: seq<Op>)
    ensures |ops| == |sets|
  {
    if sets == [] then []
    else Executes(statement, sets[..|sets| - 1]) + [Execute(statement, sets[|sets| - 1].value)]
  }

  /** The i-th execute binds the i-th parameter set. */
  lemma {:induction false} ExecutesInOrder(statement: nat, sets: seq<Entry>)
    ensures forall i :: 0 <= i < |sets| ==> Executes(statement, sets)[i] == Execute(statement, sets[i].value)
  {
    if sets != [] {
      ExecutesInOrder(statement, sets[..|sets| - 1]);
    }
  }

  /** Executing one more parameter set appends one execute to a log that ends in the earlier ones. */
  lemma ExecutesStep(statement: nat, sets: seq<Entry>, i: nat, prefix: seq<Op>, log: seq<Op>)
    requires i < |sets| && log == prefix + Executes(statement, sets[..i])
    ensures log + [Execute(statement, sets[i].value)] == prefix + Executes(statement, sets[..i + 1])
  {
    assert sets[..i + 1][..i] == sets[..i];
  }

  /** The sum of the row counts reported by the `n` executes logged from position `from` on. */
  function RowTotal(rowCount: nat -> nat, from: nat, n: nat): nat {
    if n == 0 then 0 else RowTotal(rowCount, from, n - 1) + rowCount(from + n - 1)
  }

  /** When every execute reports one row, the total is the number of executes. */
  lemma {:induction false} RowTotalOfSingleRows(rowCount: nat -> nat, from: nat, n: nat)
    requires forall i :: from <= i < from + n ==> rowCount(i) == 1
    ensures RowTotal(rowCount, from, n) == n
  {
    if n > 0 {
      RowTotalOfSingleRows(rowCount, from, n - 1);
    }
  }

  /**
   * The operations `multi($sql, $values)` issues when its prepare takes log
   * position `h`: nothing when a guard rejects the call, otherwise one
   * prepare and then one execute per parameter set in list order, up to the
   * first set `execute()` rejects.
   */
  function MultiOps(sql: string, values: seq<Entry>, h: nat): (ops: seq<Op>)
    ensures ops == [] <==> FalsyString(sql) || !BatchShaped(values)
    ensures ops != [] ==> ops[0] == Prepare(sql) && |ops| == 1 + FirstUnbindable(values)
  {
    if FalsyString(sql) || !BatchShaped(values) then []
    else [Prepare(sql)] + Executes(h, values[..FirstUnbindable(values)])
  }

  /** After the prepare, `multi`'s executes go to the prepared statement, one per parameter set, in list order. */
  lemma MultiExecutesInOrder(sql: string, values: seq<Entry>, h: nat)
    ensures var ops := MultiOps(sql, values, h);
            forall i :: 1 <= i < |ops| ==> ops[i] == Execute(h, values[i - 1].value)
  {
    if !FalsyString(sql) && BatchShaped(values) {
      ExecutesInOrder(h, values[..FirstUnbindable(values)]);
    }
  }

  /** What `multi($sql, $values)` returns or throws when its prepare takes log position `h`. */
  function MultiResult(sql: string, values: seq<Entry>, rowCount: nat -> nat, h: nat): (r: Result<int>)
    ensures r.Ok? <==> !FalsyString(sql) && BatchShaped(values) && forall i :: 0 <= i < |values| ==> Bindable(values[i].value)
    ensures r == Err(TypeError) <==>
              !FalsyString(sql) && BatchShaped(values) && exists i :: 0 <= i < |values| && !Bindable(values[i].value)
  {
    if FalsyString(sql) then Err(InvalidArgumentException(FirstArgumentEmpty))
    else if !BatchShaped(values) then Err(InvalidArgumentException(NotArrayOfArrays))
    else if FirstUnbindable(values) < |values| then Err(TypeError)
    else Ok(RowTotal(rowCount, h + 1, |values|))
  }

  /** Once both guards pass, `multi` issues a prepare and the executes before the first rejected set. */
  lemma MultiAccepted(sql: string, values: seq<Entry>, rowCount: nat -> nat, h: nat, k: nat, before: seq<Op>)
    requires !FalsyString(sql) && BatchShaped(values) && k == FirstUnbindable(values)
    ensures (before + [Prepare(sql)]) + Executes(h, values[..k]) == before + MultiOps(sql, values, h)
    ensures MultiResult(sql, values, rowCount, h)
         == if k < |values| then Err(TypeError) else Ok(RowTotal(rowCount, h + 1, |values|))
  {
  }

  /** Three single-row inserts report three rows, as the package's own test expects. */
  lemma {:induction false} ThreeInsertsCountThree(sql: string, rowCount: nat -> nat, h: nat)
    requires !FalsyString(sql)
    requires forall i :: h < i <= h + 3 ==> rowCount(i) == 1
    ensures MultiResult(sql, [Entry(IntKey(0), Arr([Entry(IntKey(0), Str("foo"))])),
                              Entry(IntKey(1), Arr([Entry(IntKey(0), Str("bar"))])),
                              Entry(IntKey(2), Arr([Entry(IntKey(0), Str("baz"))]))], rowCount, h) == Ok(3)
  {
    var values := [Entry(IntKey(0), Arr([Entry(IntKey(0), Str("foo"))])),
                   Entry(IntKey(1), Arr([Entry(IntKey(0), Str("bar"))])),
                   Entry(IntKey(2), Arr([Entry(IntKey(0), Str("baz"))]))];
    assert Lookup(values, IntKey(0)) == Some(values[0].value);
    assert FirstUnbindable(values) == 3;
    RowTotalOfSingleRows(rowCount, h + 1, 3);
  }

  /** `run`'s answer when it hands its work to `multi`. */
  function AsRowCount(r: Result<int>): Result<Outcome> {
    match r
    case Ok(n) => Ok(RowCount(n))
    case Err(e) => Err(e)
  }

  // ---------------------------------------------------------------------------
  // export() and import()
  // ---------------------------------------------------------------------------

  const NotADirectory := "Export destination must be a directory"
  const ImportFileMissing := "Import file does not exist"

  /** PHP's `rtrim($s, '/')`: `s` without its trailing slashes. */
  function TrimTrailingSlashes(s: string): (r: string)
    ensures |r| <= |s| && r == s[..|r|]
    ensures r == [] || r[|r| - 1] != '/'
    ensures forall i :: |r| <= i < |s| ==> s[i] == '/'
  {
    if s != [] && s[|s| - 1] == '/' then TrimTrailingSlashes(s[..|s| - 1]) else s
  }

  /** The archive `export` names: the destination without trailing slashes, "/", the date, ".sql.gz". */
  function ExportFile(destination: string, date: string): string {
    TrimTrailingSlashes(destination) + "/" + date + ".sql.gz"
  }

  /**
   * The archive path keeps the destination up to its trailing slashes,
   * then exactly one "/" (the character before it is not a slash), then
   * `date` and ".sql.gz".
   */
  lemma ExportFileLayout(destination: string, date: string)
    ensures var path, n := ExportFile(destination, date), |TrimTrailingSlashes(destination)|;
            && |path| == n + 1 + |date| + 7
            && path[..n] == destination[..n]
            && (forall i :: n <= i < |destination| ==> destination[i] == '/')
            && path[n] == '/'
            && (n == 0 || path[n - 1] != '/')
            && path[n + 1..] == date + ".sql.gz"
  {
    var t := TrimTrailingSlashes(destination);
    var path := ExportFile(destination, date);
    assert path == t + ("/" + (date + ".sql.gz"));
    assert path[..|t|] == t;
    assert path[|t| + 1..] == date + ".sql.gz";
  }

  /** Trailing slashes on the destination do not change the archive path. */
  lemma {:induction false} ExportFileIgnoresTrailingSlash(destination: string, date: string)
    ensures ExportFile(destination + "/", date) == ExportFile(destination, date)
  {
    assert (destination + "/")[..|destination + "/"| - 1] == destination;
  }

  /** The default destination "./" puts the archive in the current directory. */
  lemma ExportFileOfDefaultDestination(date: string)
    ensures ExportFile("./", date) == "./" + date + ".sql.gz"
  {
    assert "./"[..1] == ".";
  }

  /**
   * What `import` goes on to use once its guards pass: the database name,
   * with a backup the archive exported first, and the archive the restore
   * reads.
   */
  datatype ImportPlan = ImportPlan(database: string, backup: Option<string>, source: string)

  /**
   * The archive the restore pipeline reads, as written: the directory of
   * `file`, "/", then `file` itself, which already starts with that
   * directory unless the file sits in the current one.
   */
  function RestoreSourceAsWritten(file: string, dir: string): string {
    dir + "/" + file
  }

  /** As written, the path text the restore reads always differs from the path whose existence was checked. */
  lemma RestoreSourceNeverFile(file: string, dir: string)
    ensures RestoreSourceAsWritten(file, dir) != file
  {
  }

  /**
   * For a file `base` inside directory `dir`, the restore reads the path
   * that names `dir` twice, `dir/dir/base`; unless `dir` is "." or "/" that
   * is a file other than the one checked.
   */
  lemma RestoreSourceRepeatsDirectory(dir: string, base: string)
    ensures RestoreSourceAsWritten(dir + "/" + base, dir) == dir + "/" + dir + "/" + base
  {
  }

  /** The archive "dumps/x.sql.gz", whose directory is "dumps", is read from "dumps/dumps/x.sql.gz", another file. */
  lemma RestoreSourceDoublesDirectory()
    ensures RestoreSourceAsWritten("dumps/x.sql.gz", "dumps") == "dumps/dumps/x.sql.gz"
  {
  }

  // ---------------------------------------------------------------------------
  // __call
  // ---------------------------------------------------------------------------

  const ClassName := "PHPPackage\\PDOWrapper\\PDO"
  const UndefinedMethodPrefix := "Call to undefined method " + ClassName + "::"

  /** The message of the BadMethodCallException for an undefined method `name`. */
  function UndefinedMethodMessage(name: string): string {
    UndefinedMethodPrefix + name + "()"
  }

  /** The method a BadMethodCallException message names, if it has the wrapper's form. */
  function MethodOfMessage(message: string): Option<string> {
    var n := |UndefinedMethodPrefix|;
    if |message| >= n + 2 && message[..n] == UndefinedMethodPrefix && message[|message| - 2..] == "()"
    then Some(message[n .. |message| - 2])
    else None
  }

  /** The message names exactly the method that was called. */
  lemma {:induction false} MessageNamesMethod(name: string)
    ensures MethodOfMessage(UndefinedMethodMessage(name)) == Some(name)
  {
    var n := |UndefinedMethodPrefix|;
    var m := UndefinedMethodMessage(name);
    assert m == UndefinedMethodPrefix + (name + "()");
    assert m[..n] == UndefinedMethodPrefix;
    assert m[|m| - 2..] == "()";
    assert m[n .. |m| - 2] == name;
  }

  /** The message the package's own test expects. */
  lemma NonexistentMethodMessage()
    ensures UndefinedMethodMessage("nonexistent_method")
         == "Call to undefined method " + "PHPPackage\\PDOWrapper\\PDO" + "::" + "nonexistent_method" + "()"
  {
  }

  /**
   * `__call($method, $arguments)`: with no method called `name` (whether one
   * exists is `methodExists`) it throws BadMethodCallException naming the
   * method; otherwise the call is forwarded to that method.
   */
  function Call(name: string, methodExists: bool): (r: Result<string>)
    ensures r.Ok? <==> methodExists
    ensures r.Ok? ==> r.value == name
    ensures r.Err? ==> r.error == BadMethodCallException(UndefinedMethodMessage(name))
    ensures r.Err? ==> MethodOfMessage(r.error.message) == Some(name)
  {
    if !methodExists then
      MessageNamesMethod(name);
      Err(BadMethodCallException(UndefinedMethodMessage(name)))
    else Ok(name)
  }

  // ---------------------------------------------------------------------------
  // The connection facade
  // ---------------------------------------------------------------------------

  class Pdo {
    var dsn: string
    var username: Option<string>
    var password: Option<string>
    var options: map<int, int>
    /** The native connection this object extends. */
    const conn: Connection

    /**
     * `PDO::__construct`: stores the credentials, merges the caller's
     * options over the defaults, falls back to the SQLite file in `tmpDir`
     * when no dsn is given, and opens the native connection with them. The
     * last three parameters are the answers the database will give.
     */
    constructor (dsn: Option<string>, username: Option<string>, password: Option<string>,
                 options: map<int, int>, tmpDir: string,
                 rowCount: nat -> nat, column: nat -> seq<string>, execResult: nat -> int)
      ensures dsn.Some? ==> this.dsn == dsn.value
      ensures dsn.None? ==> this.dsn == DefaultDsn(tmpDir)
      ensures this.username == username && this.password == password
      ensures this.options == MergeOptions(options, DefaultOptions)
      ensures fresh(conn) && conn.Valid()
      ensures conn.log == [Connect(this.dsn, username, password, this.options)]
      ensures conn.rowCount == rowCount && conn.column == column && conn.execResult == execResult
    {
      this.username := username;
      this.password := password;
      this.options := MergeOptions(options, DefaultOptions);
      var resolved := dsn;
      if resolved.None? {
        resolved := Some(DefaultDsn(tmpDir));
      }
      this.dsn := resolved.value;
      conn := new Connection(resolved.value, username, password, MergeOptions(options, DefaultOptions),
                             rowCount, column, execResult);
    }

    /** `getDatabaseName()`: the database name in this connection's dsn. */
    function GetDatabaseName(): (r: Result<string>)
      reads this
      ensures r == Catalog.Name(dsn)
    {
      Catalog.Name(dsn)
    }

    /** `createDatabase($name)`: `Database::create` with this connection's credentials. */
    method CreateDatabase(name: string) returns (created: bool)
      requires conn.Valid()
      modifies conn
      ensures conn.Valid()
      ensures name in Catalog.Listed(conn.column(old(conn.issued))) ==>
                !created && conn.log == old(conn.log) + [Query(Catalog.ShowDatabases)]
      ensures name !in Catalog.Listed(conn.column(old(conn.issued))) ==>
                && conn.log == old(conn.log)
                   + [Query(Catalog.ShowDatabases),
                      Exec(Catalog.CreateStatement(name, Interpolate(username), Interpolate(password)))]
                && created == (conn.execResult(old(conn.issued) + 1) != 0)
    {
      var database := new Catalog.Database(conn);
      created := database.Create(name, username, password);
    }

    /**
     * `run($sql, $values)`: rejects an empty statement before issuing
     * anything; without values queries directly; with a flat parameter set
     * prepares once and executes once; with a list of parameter sets does
     * exactly what `multi` does and returns its row count.
     */
    method Run(sql: string, values: seq<Entry>) returns (r: Result<Outcome>)
      requires conn.Valid()
      modifies conn
      ensures conn.Valid()
      ensures FalsyString(sql) ==>
                r == Err(InvalidArgumentException(FirstArgumentEmpty)) && conn.log == old(conn.log)
      ensures !FalsyString(sql) && values == [] ==>
                r == Ok(Statement(old(conn.issued))) && conn.log == old(conn.log) + [Query(sql)]
      ensures !FalsyString(sql) && values != [] && !IsArray(Lookup(values, IntKey(0))) ==>
                && r == Ok(Statement(old(conn.issued)))
                && conn.log == old(conn.log) + [Prepare(sql), Execute(old(conn.issued), Arr(values))]
      ensures !FalsyString(sql) && values != [] && IsArray(Lookup(values, IntKey(0))) ==>
                && r == AsRowCount(MultiResult(sql, values, conn.rowCount, old(conn.issued)))
                && conn.log == old(conn.log) + MultiOps(sql, values, old(conn.issued))
    {
      if FalsyString(sql) {
        return Err(InvalidArgumentException(FirstArgumentEmpty));
      }
      if values == [] {
        var statement := conn.Query(sql);
        return Ok(Statement(statement));
      }
      if !IsArray(Lookup(values, IntKey(0))) {
        var statement := conn.Prepare(sql);
        var _ := conn.Execute(statement, Arr(values));
        return Ok(Statement(statement));
      }
      var total := Multi(sql, values);
      return AsRowCount(total);
    }

    /**
     * `multi($sql, $values)`: after its two guards, prepares once, executes
     * each parameter set in list order and returns the sum of the reported
     * row counts.
     */
    method Multi(sql: string, values: seq<Entry>) returns (r: Result<int>)
      requires conn.Valid()
      modifies conn
      ensures conn.Valid()
      ensures r == MultiResult(sql, values, conn.rowCount, old(conn.issued))
      ensures conn.log == old(conn.log) + MultiOps(sql, values, old(conn.issued))
    {
      if FalsyString(sql) {
        return Err(InvalidArgumentException(FirstArgumentEmpty));
      }
      if !BatchShaped(values) {
        return Err(InvalidArgumentException(NotArrayOfArrays));
      }
      ghost var before := conn.log;
      var statement := conn.Prepare(sql);
      r := ExecuteEach(statement, values);
      MultiAccepted(sql, values, conn.rowCount, statement, FirstUnbindable(values), before);
    }

    /**
     * The loop of `multi`: executes `statement` once per parameter set in
     * list order, adding up the row counts, until `execute()` rejects a set.
     */
    method ExecuteEach(statement: nat, values: seq<Entry>) returns (r: Result<int>)
      requires conn.Valid()
      modifies conn
      ensures conn.Valid()
      ensures conn.log == old(conn.log) + Executes(statement, values[..FirstUnbindable(values)])
      ensures FirstUnbindable(values) < |values| ==> r == Err(TypeError)
      ensures FirstUnbindable(values) == |values| ==> r == Ok(RowTotal(conn.rowCount, old(conn.issued), |values|))
    {
      ghost var prepared := conn.log;
      var rowTotal := 0;
      var i := 0;
      while i < |values|
        invariant i <= FirstUnbindable(values)
        invariant conn.Valid() && conn.issued == old(conn.issued) + i
        invariant conn.log == prepared + Executes(statement, values[..i])
        invariant rowTotal == RowTotal(conn.rowCount, old(conn.issued), i)
      {
        var value := values[i].value;
        if !Bindable(value) {
          return Err(TypeError);
        }
        ExecutesStep(statement, values, i, prepared, conn.log);
        var affected := conn.Execute(statement, value);
        rowTotal := rowTotal + affected;
        i := i + 1;
      }
      assert values[..i] == values;
      return Ok(rowTotal);
    }

    /**
     * `export($destination)` up to the archive it names: a destination that
     * is not a directory (`isDir`) is refused first, then the dsn must name
     * a database; `date` is the formatted current time.
     */
    function Export(destination: string, isDir: bool, date: string): (r: Result<string>)
      reads this
      ensures !isDir ==> r == Err(DomainException(NotADirectory))
      ensures isDir && GetDatabaseName().Err? ==> r == Err(RuntimeException(Catalog.NoDatabaseName))
      ensures isDir && GetDatabaseName().Ok? ==> r == Ok(ExportFile(destination, date))
    {
      if !isDir then Err(DomainException(NotADirectory))
      else
        match GetDatabaseName()
        case Err(e) => Err(e)
        case Ok(_) => Ok(ExportFile(destination, date))
    }

    /**
     * `import($file, $backup)` up to the restore it runs: a missing file
     * (`fileExists`) is refused first, then the dsn must name a database, and
     * with `backup` the database is first exported to `dir`, the directory
     * of `file` (`dirIsDir` says whether it is one).
     */
    function Import(file: string, fileExists: bool, backup: bool, dir: string, dirIsDir: bool, date: string)
      : (r: Result<ImportPlan>)
      reads this
      ensures !fileExists ==> r == Err(DomainException(ImportFileMissing))
      ensures fileExists && GetDatabaseName().Err? ==> r == Err(RuntimeException(Catalog.NoDatabaseName))
      ensures r.Ok? ==> fileExists && r.value.database == GetDatabaseName().value
      ensures r.Ok? ==> (r.value.backup.Some? <==> backup)
      ensures r.Ok? && backup ==> r.value.backup == Some(ExportFile(dir, date))
      ensures fileExists && GetDatabaseName().Ok? && !backup ==> r == Ok(ImportPlan(GetDatabaseName().value, None, file))
      ensures fileExists && GetDatabaseName().Ok? && backup ==> (r.Ok? <==> dirIsDir)
      ensures fileExists && GetDatabaseName().Ok? && backup && !dirIsDir ==> r == Err(DomainException(NotADirectory))
      ensures r.Ok? ==> r.value.source == file
    {
      if !fileExists then Err(DomainException(ImportFileMissing))
      else
        match GetDatabaseName()
        case Err(e) => Err(e)
        case Ok(database) =>
          if backup then
            match Export(dir, dirIsDir, date)
            case Err(e) => Err(e)
            case Ok(archive) => Ok(ImportPlan(database, Some(archive), file))
          else Ok(ImportPlan(database, None, file))
    }
  }

  /** A connection made without a dsn cannot name its database, so it can be neither exported nor imported. */
  lemma DefaultConnectionHasNoDatabaseName(pdo: Pdo, tmpDir: string)
    requires pdo.dsn == DefaultDsn(tmpDir) && ';' !in tmpDir
    ensures pdo.GetDatabaseName() == Err(RuntimeException(Catalog.NoDatabaseName))
    ensures forall destination, date :: pdo.Export(destination, true, date).Err?
  {
    DefaultDsnHasNoDatabaseName(tmpDir);
  }
}
