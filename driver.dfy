/**
 * The native connection the wrapper extends (PHP's `\PDO` and the statements
 * it hands out), reduced to what the wrapper asks of it. The connection keeps
 * a log of every operation issued against it; what the database answers is
 * uninterpreted: fixed functions of the position the operation takes in that
 * log, supplied when the connection is made.
 */
module Driver {
  import opened Php

  /** An operation issued to the native driver. `statement` is the log position of the query or prepare that created it. */
  datatype Op =
    | Connect(dsn: string, username: Option<string>, password: Option<string>, options: map<int, int>)
    | Query(sql: string)
    | Prepare(sql: string)
    | Execute(statement: nat, params: Value)
    | Exec(sql: string)

  class Connection {
    /** Every operation issued so far, oldest first. */
    ghost var log: seq<Op>
    /** How many operations have been issued; the log position of the next one. */
    var issued: nat

    /** `rowCount()` of a statement right after the execute logged at position n. */
    const rowCount: nat -> nat
    /** First-column values of the result set of the query logged at position n, before end of results. */
    const column: nat -> seq<string>
    /** What `exec()` returns for the statement text logged at position n. */
    const execResult: nat -> int

    ghost predicate Valid()
      reads this
    {
      issued == |log|
    }

    /** `\PDO::__construct`: opening the connection is its first logged operation. */
    constructor (dsn: string, username: Option<string>, password: Option<string>, options: map<int, int>,
                 rowCount: nat -> nat, column: nat -> seq<string>, execResult: nat -> int)
      ensures Valid()
      ensures log == [Op.Connect(dsn, username, password, options)]
      ensures this.rowCount == rowCount && this.column == column && this.execResult == execResult
    {
      this.rowCount := rowCount;
      this.column := column;
      this.execResult := execResult;
      log := [Op.Connect(dsn, username, password, options)];
      issued := 1;
    }

    /** `\PDO::query`: runs `sql` directly and returns its statement. */
    method Query(sql: string) returns (statement: nat)
      requires Valid()
      modifies this
      ensures Valid()
      ensures statement == old(issued)
      ensures log == old(log) + [Op.Query(sql)]
    {
      statement := issued;
      log := log + [Op.Query(sql)];
      issued := issued + 1;
    }

    /** `\PDO::prepare`: returns a prepared statement for `sql`. */
    method Prepare(sql: string) returns (statement: nat)
      requires Valid()
      modifies this
      ensures Valid()
      ensures statement == old(issued)
      ensures log == old(log) + [Op.Prepare(sql)]
    {
      statement := issued;
      log := log + [Op.Prepare(sql)];
      issued := issued + 1;
    }

    /**
     * `\PDOStatement::execute($params)` on `statement`, followed by
     * `rowCount()`, whose answer is returned.
     */
    method Execute(statement: nat, params: Value) returns (affected: nat)
      requires Valid()
      modifies this
      ensures Valid()
      ensures affected == rowCount(old(issued))
      ensures log == old(log) + [Op.Execute(statement, params)]
    {
      affected := rowCount(issued);
      log := log + [Op.Execute(statement, params)];
      issued := issued + 1;
    }

    /** `\PDO::exec`: runs `sql` and returns what the driver reports. */
    method Exec(sql: string) returns (result: int)
      requires Valid()
      modifies this
      ensures Valid()
      ensures result == execResult(old(issued))
      ensures log == old(log) + [Op.Exec(sql)]
    {
      result := execResult(issued);
      log := log + [Op.Exec(sql)];
      issued := issued + 1;
    }
  }
}
