/**
 * The database surface the data-access layer programs against: the `Scanner`,
 * `SQLCmd`, `SQLBeginTx` and `SQLTx` interfaces (declared alike in
 * entity/entity.go and entity/dao.go) and the `database/sql` objects behind them.
 *
 * The database itself is an oracle: every statement is answered by a total
 * function of the statement, and every executor records, in `log`, the calls
 * made on it in the order they were made. A transaction is a small state
 * machine, Open until its first Commit or Rollback.
 */
module Sql {
  import opened Wrappers

  /** A value bound to a placeholder or read from a column. Floats and times are opaque. */
  datatype Value = Str(s: string) | Int(i: int) | Opaque(tag: nat)

  /** errors.ResourceInfo: what a NotFound error reports to the client. */
  datatype ResourceInfo = ResourceInfo(resourceType: string, resourceName: string)

  datatype Error =
    | Driver(code: nat)             // whatever the database or its driver reports
    | NoBeginTx                     // "db should support interface SQLBeginTx"
    | TxDone                        // sql.ErrTxDone: the transaction was already finished
    | ScanMismatch                  // Scan could not assign the columns to its targets
    | Invalid(code: nat)            // the validator rejected the entity
    | Encoding(code: nat)           // json.Marshal / json.Unmarshal failed
    | NotFound(info: ResourceInfo)  // errors.WithNotFound(errors.NotFound, info)

  /** A statement text and its positional arguments, in placeholder order. */
  datatype Stmt = Stmt(script: string, args: seq<Value>)

  /** One call made on an executor. */
  datatype Event = QueryRow(stmt: Stmt) | Query(stmt: Stmt) | Exec(stmt: Stmt) | Begin | Commit | Rollback

  /** A row positioned for `Scan`: its column values, or the error `Scan` reports (sql.ErrNoRows among them). */
  datatype Scanner = Scanner(columns: Result<seq<Value>, Error>)

  /** *sql.Rows: the rows that `Next` visits in order, then what `Err` reports. */
  datatype Rows = Rows(rows: seq<seq<Value>>, err: Option<Error>)

  /** sql.Result. */
  datatype ExecResult = ExecResult(lastInsertId: Result<int, Error>, rowsAffected: Result<int, Error>)

  /** How the database answers statements. */
  datatype Answers = Answers(
    queryRow: Stmt -> Scanner,
    query: Stmt -> Result<Rows, Error>,
    exec: Stmt -> Result<ExecResult, Error>)

  /**
   * Everything the database reports to one executor: its answers to statements,
   * the answers a transaction begun on it would see, whether BeginTx fails, and
   * what a transaction's driver reports when it commits or rolls back.
   */
  datatype Oracle = Oracle(
    answers: Answers,
    txAnswers: Answers,
    beginErr: Option<Error>,
    commit: Option<Error>,
    rollback: Option<Error>)

  /** *sql.DB implements SQLBeginTx; *sql.Tx implements SQLTx and not SQLBeginTx. */
  datatype Kind = Database | Transaction

  datatype TxState = Open | Committed | RolledBack

  /** What finishing a transaction returns: the commit's error on success, the cause otherwise. */
  function FinishOutcome(cause: Option<Error>, commitErr: Option<Error>): (err: Option<Error>)
    ensures cause.Some? ==> err == cause
    ensures cause.None? ==> err == commitErr
  {
    if cause.None? then commitErr else cause
  }

  /** What a transaction begun on a pool with oracle `o` is answered by. */
  function TxOracle(o: Oracle): Oracle
  {
    o.(answers := o.txAnswers)
  }

  /** The error a Go `(value, err)` pair carries. */
  function ErrorOf<T>(r: Result<T, Error>): Option<Error>
  {
    if r.Err? then Some(r.error) else None
  }

  /**
   * A unit of work's result once the finishing error has been assigned over its `err`.
   * A failed unit of work with no finishing error would be reported as that failure,
   * not as success; no finish here produces that pair, since both finishes return
   * a non-nil cause unchanged.
   */
  function Settle<T>(work: Result<T, Error>, err: Option<Error>): (r: Result<T, Error>)
    ensures err.Some? ==> r == Err(err.value)
    ensures err.None? && work.Ok? ==> r == work
  {
    if err.Some? then Err(err.value) else work
  }

  /**
   * A unit of work finished by commit-or-rollback: its result survives exactly
   * when it succeeded and the commit reported nothing, and a failed unit of work
   * keeps its own error, whatever the rollback reports.
   */
  lemma SettledByFinish<T>(work: Result<T, Error>, commitErr: Option<Error>)
    ensures var r := Settle(work, FinishOutcome(ErrorOf(work), commitErr));
            && (r.Ok? <==> work.Ok? && commitErr.None?)
            && (r.Ok? ==> r == work)
            && (work.Err? ==> r == work)
            && (work.Ok? && commitErr.Some? ==> r == Err(commitErr.value))
  {
  }

  /** Scanning rows in order; the first scan error ends it. */
  function ScanRows<E>(scan: Scanner -> Result<E, Error>, rows: seq<seq<Value>>): (r: Result<seq<E>, Error>)
    ensures r.Ok? ==> |r.value| == |rows|
    ensures |rows| > 0 && r.Ok? ==> scan(Scanner(Ok(rows[|rows| - 1]))) == Ok(r.value[|rows| - 1])
  {
    if |rows| == 0 then Ok([])
    else
      var init := ScanRows(scan, rows[..|rows| - 1]);
      if init.Err? then init
      else
        var e := scan(Scanner(Ok(rows[|rows| - 1])));
        if e.Err? then Err(e.error) else Ok(init.value + [e.value])
  }

  /** Once a prefix fails to scan, scanning the whole fails the same way. */
  lemma {:induction false} ScanRowsAbort<E>(scan: Scanner -> Result<E, Error>, rows: seq<seq<Value>>, k: nat)
    requires k <= |rows| && ScanRows(scan, rows[..k]).Err?
    ensures ScanRows(scan, rows) == ScanRows(scan, rows[..k])
  {
    if k < |rows| {
      assert rows[..|rows| - 1][..k] == rows[..k];
      ScanRowsAbort(scan, rows[..|rows| - 1], k);
    } else {
      assert rows[..k] == rows;
    }
  }

  /** A successful scan holds one entity per row, in row order. */
  lemma {:induction false} ScanRowsOk<E>(scan: Scanner -> Result<E, Error>, rows: seq<seq<Value>>)
    requires ScanRows(scan, rows).Ok?
    ensures |ScanRows(scan, rows).value| == |rows|
    ensures forall i :: 0 <= i < |rows| ==> scan(Scanner(Ok(rows[i]))) == Ok(ScanRows(scan, rows).value[i])
  {
    if |rows| > 0 {
      var init := rows[..|rows| - 1];
      ScanRowsOk(scan, init);
      forall i | 0 <= i < |rows|
        ensures scan(Scanner(Ok(rows[i]))) == Ok(ScanRows(scan, rows).value[i])
      {
        if i < |init| {
          assert rows[i] == init[i];
        }
      }
    }
  }

  /** The first row that fails to scan decides the error. */
  lemma {:induction false} ScanRowsFirstError<E>(scan: Scanner -> Result<E, Error>, rows: seq<seq<Value>>, i: nat)
    requires i < |rows|
    requires forall j :: 0 <= j < i ==> scan(Scanner(Ok(rows[j]))).Ok?
    requires scan(Scanner(Ok(rows[i]))).Err?
    ensures ScanRows(scan, rows) == Err(scan(Scanner(Ok(rows[i]))).error)
  {
    ScanRowsAllOk(scan, rows[..i]);
    assert rows[..i + 1][..i] == rows[..i];
    ScanRowsAbort(scan, rows, i + 1);
  }

  /** When every row scans, so does the page. */
  lemma {:induction false} ScanRowsAllOk<E>(scan: Scanner -> Result<E, Error>, rows: seq<seq<Value>>)
    requires forall j :: 0 <= j < |rows| ==> scan(Scanner(Ok(rows[j]))).Ok?
    ensures ScanRows(scan, rows).Ok?
  {
    if |rows| > 0 {
      ScanRowsAllOk(scan, rows[..|rows| - 1]);
    }
  }

  /** What Commit reports on a transaction in `state`. */
  function CommitAnswer(state: TxState, o: Oracle): Option<Error>
  {
    if state == Open then o.commit else Some(TxDone)
  }

  /** A SQLCmd: a connection pool or an open transaction. */
  class Executor {
    const kind: Kind
    const oracle: Oracle
    var log: seq<Event>
    var state: TxState

    constructor (kind: Kind, oracle: Oracle)
      ensures this.kind == kind && this.oracle == oracle
      ensures log == [] && state == Open
    {
      this.kind := kind;
      this.oracle := oracle;
      log := [];
      state := Open;
    }

    /** QueryRowContext. */
    method QueryRow(s: Stmt) returns (row: Scanner)
      modifies this
      ensures log == old(log) + [Event.QueryRow(s)] && state == old(state)
      ensures row == oracle.answers.queryRow(s)
    {
      log := log + [Event.QueryRow(s)];
      row := oracle.answers.queryRow(s);
    }

    /** QueryContext. */
    method Query(s: Stmt) returns (r: Result<Rows, Error>)
      modifies this
      ensures log == old(log) + [Event.Query(s)] && state == old(state)
      ensures r == oracle.answers.query(s)
    {
      log := log + [Event.Query(s)];
      r := oracle.answers.query(s);
    }

    /** ExecContext. */
    method Exec(s: Stmt) returns (r: Result<ExecResult, Error>)
      modifies this
      ensures log == old(log) + [Event.Exec(s)] && state == old(state)
      ensures r == oracle.answers.exec(s)
    {
      log := log + [Event.Exec(s)];
      r := oracle.answers.exec(s);
    }

    /** (*sql.DB).BeginTx: a fresh open transaction, or the error and no transaction. */
    method BeginTx() returns (tx: Executor?, err: Option<Error>)
      requires kind == Database
      modifies this
      ensures log == old(log) + [Event.Begin] && state == old(state)
      ensures oracle.beginErr.Some? ==> tx == null && err == oracle.beginErr
      ensures oracle.beginErr.None? ==> err == None && tx != null && fresh(tx)
      ensures oracle.beginErr.None? ==> tx.kind == Transaction && tx.oracle == TxOracle(oracle)
      ensures oracle.beginErr.None? ==> tx.log == [] && tx.state == Open
    {
      log := log + [Event.Begin];
      if oracle.beginErr.Some? {
        tx, err := null, oracle.beginErr;
      } else {
        tx := new Executor(Transaction, TxOracle(oracle));
        err := None;
      }
    }

    /** (*sql.Tx).Commit: finishes the transaction whatever the driver reports; a finished one answers ErrTxDone. */
    method Commit() returns (err: Option<Error>)
      requires kind == Transaction
      modifies this
      ensures log == old(log) + [Event.Commit]
      ensures old(state) == Open ==> state == Committed && err == oracle.commit
      ensures old(state) != Open ==> state == old(state) && err == Some(TxDone)
    {
      log := log + [Event.Commit];
      if state == Open {
        state := Committed;
        err := oracle.commit;
      } else {
        err := Some(TxDone);
      }
    }

    /** (*sql.Tx).Rollback, likewise. */
    method Rollback() returns (err: Option<Error>)
      requires kind == Transaction
      modifies this
      ensures log == old(log) + [Event.Rollback]
      ensures old(state) == Open ==> state == RolledBack && err == oracle.rollback
      ensures old(state) != Open ==> state == old(state) && err == Some(TxDone)
    {
      log := log + [Event.Rollback];
      if state == Open {
        state := RolledBack;
        err := oracle.rollback;
      } else {
        err := Some(TxDone);
      }
    }
  }
}
