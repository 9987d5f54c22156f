# pdo-wrapper in Dafny

A model of the core of `phppackage/pdo-wrapper`, a small PHP library whose
class `PHPPackage\PDOWrapper\PDO` extends PHP's native `\PDO` with:

- defaults for construction: the connection options every connection gets, and an SQLite file in
  the temporary directory when no dsn is given;
- `run` and `multi`, which query, prepare and execute in one call;
- `export` and `import` of a MySQL database through `mysqldump`/`zcat`;
- a `__call` that reports undefined methods.

A helper class `PHPPackage\PDOWrapper\Database` extracts the database name
from the dsn, lists the databases, and creates a database together with a
user that may use it.

The project has four modules:

- `php.dfy` (`Php`): the part of PHP's value model the logic relies on.
  It has scalars and ordered arrays, `empty()`, `is_array()` and array
  offset lookup. It also has the thrown exceptions, and a `Result` type
  that stands for "returns or throws".
- `driver.dfy` (`Driver`): the native `\PDO` the wrapper extends. It is a
  `Connection` class that keeps a log of every operation issued to it:
  connect, query, prepare, execute, exec. What the database answers comes
  from three fixed functions of the position the operation takes in that
  log. They give the row count after an execute, the first column of a
  query's result set, and the value `exec` returns.
- `catalog.dfy` (`Catalog`): `src/Database.php`. It holds the dsn parser
  `Name`, the listing `Listed`/`All`, and `Create`.
- `wrapper.dfy` (`Wrapper`): `src/PDO.php`. It holds:
  - the option merge and the default dsn;
  - `run` and `multi` as methods of class `Pdo`, which issue operations to its `conn`;
  - the archive path `export` builds, and the guards of `import`;
  - the `__call` message.

The wrapper extends `\PDO`. In the model, class `Pdo` holds the native
connection as `conn` instead. Every inherited call the PHP code makes
(`$this->query`, `$this->prepare`, `$stmt->execute`, `$this->exec`) is a
method call on `conn`, and it shows up in `conn.log`. A statement handle is
the log position of the `query` or `prepare` that created it.

## Model

| member | source | states |
|---|---|---|
| Php.Empty | src/PDO.php:159 | PHP's `empty()`, also used at src/PDO.php:128, 132 and 155: true for a missing offset, null, false, 0, "", "0" and the empty array; `Catalog.Database.All` relies on it to stop, and `Wrapper.MultiOps` on it for the guard |
| Php.Lookup | src/PDO.php:136 | `$values[0]` is the value of an entry with key 0 when there is one; it is missing exactly when no entry has that key |
| Wrapper.MergeOptions | src/PDO.php:59 | `$options + $this->options` has every key of either side; the caller's value wins where both have one, and the default fills the rest |
| Wrapper.CallerErrmodeWins | src/PDO.php:36-40 | a caller's ERRMODE_WARNING survives the merge, and the default fetch mode and emulate-prepares setting are added |
| Wrapper.Pdo.constructor | src/PDO.php:50-66 | credentials are stored; options are the caller's merged over the defaults; a missing dsn becomes `sqlite:/<tmp>/PDOWrapper.db`; the native connection is opened with exactly these values and nothing else is issued |
| Wrapper.DefaultDsn | src/PDO.php:62 | the dsn used when none is given, `sqlite:/<tmp>/PDOWrapper.db`; its property is in `DefaultDsnHasNoDatabaseName` |
| Wrapper.DefaultDsnHasNoDatabaseName | src/PDO.php:61-63 | the default SQLite dsn names no database, so `getDatabaseName` throws on it when the temporary directory's path holds no ";" |
| Wrapper.DefaultConnectionHasNoDatabaseName | src/PDO.php:74-77 | a connection made with the default dsn cannot name its database, so `export` fails on it even for a directory |
| Catalog.WordRunEnd | src/Database.php:48 | the greedy `\w+` stops at the first non-word character or at the end of the dsn |
| Catalog.CaptureAt | src/Database.php:48 | the capture found at a position is a real match there; none is found only when no name matches there |
| Catalog.RunEndsAtSemicolon | src/Database.php:48 | any match at a position starts with "dbname=", and its greedy run of word characters ends at the ";" |
| Catalog.CaptureIsDetermined | src/Database.php:48 | at one position at most one name can be captured |
| Catalog.FirstMatch | src/Database.php:48 | the match found is the leftmost one from the starting position; none is found only when nothing matches from there on |
| Catalog.Name | src/Database.php:45-53 | success returns a name that matches /dbname=(\w+);/ with no earlier match; failure is a RuntimeException with the source's message, and only when nothing in the dsn matches |
| Catalog.NameIsLeftmostMatch | src/Database.php:45-53 | conversely, the leftmost match's capture is the name returned |
| Catalog.NoSemicolonNoName | src/Database.php:48-50 | a dsn without ";" has no database name |
| Catalog.NoMatchOffKey | src/Database.php:48 | no match starts at a character other than the "d" of "dbname=" |
| Catalog.NameOfTestDsn | src/Database.php:45-53 | `mysql:dbname=test;host=127.0.0.1` yields "test" |
| Catalog.NameIsUnanchored | src/Database.php:48 | the pattern is unanchored: `mydbname=x;` yields "x" |
| Catalog.NameMissing | src/Database.php:48-50 | a dsn without a dbname, and one whose dbname is not followed by ";", both throw |
| Wrapper.Pdo.GetDatabaseName | src/PDO.php:74-77 | `getDatabaseName()` is `Database::name` of the stored dsn |
| Catalog.Listed | src/Database.php:82-84 | the listing is the longest prefix of the first column whose values PHP reads as true; the value after it is falsy or is the end of the results |
| Catalog.FalsyNameNeverListed | src/Database.php:62 | "" and "0" never appear in the listing |
| Catalog.Database.All | src/Database.php:77-87 | `all()` issues exactly SHOW DATABASES and returns that listing of its result set |
| Catalog.CreateStatement | src/Database.php:63-68 | the compound statement with the source's line breaks and indentation; `CreateStatementInOrder` proves its clauses appear in order |
| Catalog.ContainsInOrderPrepend | src/Database.php:63-68 | putting a string and one more part in front keeps the parts in order |
| Catalog.IndentedInOrder | src/Database.php:63-68 | the indented lines of the statement appear in it, in their order |
| Catalog.CreateStatementInOrder | src/Database.php:63-68 | the statement creates the database, then the user, grants the user all rights on the database, and flushes privileges, in that order |
| Catalog.Database.Create | src/Database.php:60-71 | for a listed name, only the listing query is issued and the result is false; otherwise the listing query and the one compound statement are issued, and the result is whether `exec` reported non-zero |
| Wrapper.Pdo.CreateDatabase | src/PDO.php:84-87 | `createDatabase` is `create` with the connection's stored username and password, null read as "" |
| Wrapper.BatchShaped | src/PDO.php:159 | `multi`'s second guard: `$values[0]` is present, not empty, and an array; `MultiOps` and `MultiResult` state that the call is rejected exactly when it fails |
| Wrapper.FirstUnbindable | src/PDO.php:166-169 | it is the index of the first parameter set `execute()` refuses, or the count of sets when it refuses none |
| Wrapper.FirstUnbindableAt | src/PDO.php:166-169 | conversely, any index with only accepted sets before it and a refused set (or the end) at it is that index |
| Wrapper.ExecutesInOrder | src/PDO.php:166-167 | the i-th execute binds the i-th parameter set, and all go to the same statement |
| Wrapper.ExecutesStep | src/PDO.php:166-167 | executing the next set appends exactly one execute to the log |
| Wrapper.RowTotal | src/PDO.php:165-168 | the sum of the row counts reported by consecutive executes; `Pdo.ExecuteEach` proves the loop returns it, and `RowTotalOfSingleRows` evaluates it |
| Wrapper.RowTotalOfSingleRows | src/PDO.php:165-171 | when every execute reports one row, `multi` returns the number of executes |
| Wrapper.MultiOps | src/PDO.php:153-172 | `multi` issues nothing exactly when a guard rejects the call; otherwise it issues one prepare, then one execute per set up to the first refused one |
| Wrapper.MultiResult | src/PDO.php:153-172 | `multi` returns a row count exactly when both guards pass and every parameter set is an array or null; it throws TypeError exactly when the guards pass and some set is neither |
| Wrapper.MultiExecutesInOrder | src/PDO.php:163-169 | after the prepare, the executes go to the prepared statement, one per parameter set, in list order |
| Wrapper.MultiAccepted | src/PDO.php:159-172 | once both guards pass, the log gains the prepare and the accepted executes, and the result is the TypeError or the row-count sum |
| Wrapper.ThreeInsertsCountThree | src/PDO.php:153-172 | three single-row inserts return 3 |
| Wrapper.Pdo.ExecuteEach | src/PDO.php:165-171 | the loop logs one execute per set up to the first refused set; it throws TypeError at that set, or returns the sum of the reported row counts |
| Wrapper.Pdo.Multi | src/PDO.php:153-172 | `multi` throws on an empty statement or a first value that is missing, empty or not an array, before issuing anything; otherwise its log and result are `MultiOps` and `MultiResult` |
| Wrapper.Pdo.Run | src/PDO.php:126-143 | an empty statement throws before anything is issued; no values queries directly; a flat parameter set prepares and executes once and returns the statement; a list of sets is exactly `multi` |
| Wrapper.TrimTrailingSlashes | src/PDO.php:290 | `rtrim($d, '/')` is a prefix of `d` that does not end in "/", and every character it removes is "/" |
| Wrapper.ExportFile | src/PDO.php:290-294 | the archive path `export` returns; `ExportFileLayout` states its layout |
| Wrapper.ExportFileLayout | src/PDO.php:290-294 | the archive path is the trimmed destination, exactly one "/", the date, then ".sql.gz" |
| Wrapper.ExportFileIgnoresTrailingSlash | src/PDO.php:290-294 | a trailing "/" on the destination does not change the path |
| Wrapper.ExportFileOfDefaultDestination | src/PDO.php:279-294 | the default destination "./" gives `./<date>.sql.gz` |
| Wrapper.Pdo.Export | src/PDO.php:283-294 | a destination that is not a directory throws DomainException; then a dsn without a database name throws RuntimeException; otherwise it returns the archive path |
| Wrapper.RestoreSourceAsWritten | src/PDO.php:259-267 | the archive the restore reads as written, `{$dir}/{$file}` with `$dir` the file's directory; the three lemmas below state what it reads |
| Wrapper.RestoreSourceNeverFile | src/PDO.php:259-267 | as written, the path text the restore reads always differs from the path whose existence was checked (for a file in "." it is the same file under another name) |
| Wrapper.RestoreSourceRepeatsDirectory | src/PDO.php:259-267 | as written, a file `base` in directory `dir` is read from `dir/dir/base`, which names the directory twice |
| Wrapper.RestoreSourceDoublesDirectory | src/PDO.php:259-267 | as written, `dumps/x.sql.gz` is read from `dumps/dumps/x.sql.gz` |
| Wrapper.Pdo.Import | src/PDO.php:249-270 | a missing file throws DomainException; then a dsn without a database name throws RuntimeException; without a backup the import goes through; with a backup it goes through exactly when the file's directory is a directory, keeps the export's path, and otherwise throws the export's DomainException; the restore reads the checked file |
| Wrapper.UndefinedMethodMessage | src/PDO.php:309 | the BadMethodCallException message; `MessageNamesMethod` proves it names exactly the method called |
| Wrapper.MessageNamesMethod | src/PDO.php:309 | the undefined-method message can be parsed back to exactly the method name |
| Wrapper.NonexistentMethodMessage | src/PDO.php:309 | `nonexistent_method` yields `Call to undefined method PHPPackage\PDOWrapper\PDO::nonexistent_method()` |
| Wrapper.Call | src/PDO.php:306-315 | `__call` throws BadMethodCallException with the message `Call to undefined method PHPPackage\PDOWrapper\PDO::<name>()` exactly when the method does not exist, and that message parses back to the method's name; otherwise the call is forwarded to it |

## Left out

- `PDO::checkImportExportRequirements` (src/PDO.php:218-239) is not modelled. It starts with `$this->info('DRIVER_NAME')`, and `PDO::info` delegates to `Database::info`, which src/Database.php does not define. Its other checks only construct exceptions and never throw them. The `export` and `import` models start after this call.
- `PDO::databases`, `PDO::info` and `PDO::tables` (src/PDO.php:93-116) are left out. They delegate to `Database` methods that src/Database.php does not define.
- `PDO::all`, `PDO::row` and `PDO::cell` are left out. They call `fetchAll`, `fetch` or `fetchColumn` on what `run` returns, and fetching rows is the driver's work.
- The shell pipelines of `export` and `import` (`mysqldump | gzip`, `zcat | mysql`) are external processes and are not modelled. `import` is modelled up to the plan it would hand to the restore.
- Clock, file system and environment are parameters of the model:
  - `Wrapper.Pdo.constructor`: the temporary directory (`sys_get_temp_dir()`) is the `tmpDir` parameter.
  - `Wrapper.Pdo.Export`: `is_dir` is the `isDir` parameter, and the formatted current time is the `date` parameter.
  - `Wrapper.Pdo.Import`: `file_exists`, `dirname` and `is_dir` are the `fileExists`, `dir` and `dirIsDir` parameters.
- Wrapper.Call: `method_exists` is the `methodExists` parameter, and forwarding to an existing method is represented by its name only.
- Wrapper.Pdo.constructor: the options are a map from attribute to integer. `false` is written 0, and the order of the merged array is not kept.
- Connection failures, driver errors and the error-mode behaviour they would trigger are not modelled. Every native operation succeeds, with the answers its oracle gives.
- Catalog.Database.Create: `in_array` compares loosely in PHP, so a numeric string can equal a differently written one ("1" and "01"). The model compares names exactly.
- Catalog.Database.Create: `exec` may return `false` on failure; the model's oracle returns an integer, with 0 standing for false.
- Wrapper.Pdo.Run: when `$values` is non-empty but has no key 0, PHP raises an "Undefined array key 0" warning (a notice before PHP 8) on reading `$values[0]`. An error handler that turns warnings into exceptions would stop `run` there. The model reads the missing offset as null and goes on to prepare and execute, as PHP does without such a handler.
- Php.Lookup: arrays are lists of key/value entries. The model does not enforce what PHP guarantees of its arrays: keys are distinct, and a string key such as "0" is stored as the integer key 0. On an array PHP cannot build, `Lookup` can miss an entry that PHP would find.
- Wrapper.Pdo.Multi: the TypeError that `execute()` throws for a parameter set that is neither an array nor null is modelled without its message. Floats, objects and resources are not part of the value model.
- Wrapper.Pdo.Multi: the loop of `multi` is written as the helper method `Wrapper.Pdo.ExecuteEach`, which runs after the guards and the prepare.

## Findings

| source | as written | input that shows it | evidently intended | confidence | as-written member | corrected member |
|---|---|---|---|---|---|---|
| src/PDO.php:259-267 | the restore reads `{$dir}/{$file}` with `$dir = dirname($file)`, so the directory is prefixed a second time | file `dumps/x.sql.gz` (directory `dumps`) is read from `dumps/dumps/x.sql.gz` | the restore reads `$file`, the file whose existence was checked | not executed; high | Wrapper.RestoreSourceDoublesDirectory | Wrapper.Pdo.Import |
