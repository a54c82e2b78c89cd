/**
 * internal/service/entity/dao.go: the second version of the transaction helper,
 * used by the generic Dao. BeginTx falls back to the executor it was given,
 * with a finish that passes its error through, when that executor cannot begin
 * a transaction (it already is one).
 */
module EntityDao {
  import opened Wrappers
  import opened Sql
  import Entity

  /** The `finish` closure BeginTx returns. */
  datatype Finisher = PassThrough | FinishOn(tx: Executor?)

  function Footprint(f: Finisher): set<Executor>
  {
    if f.FinishOn? && f.tx != null then {f.tx} else {}
  }

  /**
   * BeginTx (dao.go): on a pool, a fresh transaction and a finish bound to it (or
   * the begin error); otherwise the same executor and a pass-through finish.
   */
  method BeginTx(db: Executor) returns (tx: Executor?, finish: Finisher, err: Option<Error>)
    modifies db
    ensures db.kind == Transaction ==> tx == db && finish == PassThrough && err == None && db.log == old(db.log)
    ensures db.kind == Database ==> db.log == old(db.log) + [Begin] && finish == FinishOn(tx)
    ensures db.state == old(db.state)
    ensures db.kind == Database && db.oracle.beginErr.Some? ==> tx == null && err == db.oracle.beginErr
    ensures db.kind == Database && db.oracle.beginErr.None? ==>
              err == None && tx != null && fresh(tx) && tx.kind == Transaction
              && tx.oracle == TxOracle(db.oracle) && tx.log == [] && tx.state == Open
  {
    if db.kind == Database {
      tx, err := db.BeginTx();
      finish := FinishOn(tx);
    } else {
      tx := db;
      finish := PassThrough;
      err := None;
    }
  }

  /**
   * finishTx: exactly one of Commit (no cause; its error is returned) or Rollback
   * (a cause; the cause is returned, whatever the rollback reports).
   */
  method FinishTx(tx: Executor, cause: Option<Error>) returns (err: Option<Error>)
    requires tx.kind == Transaction
    modifies tx
    ensures tx.log == old(tx.log) + [if cause.None? then Commit else Rollback]
    ensures err == FinishOutcome(cause, CommitAnswer(old(tx.state), tx.oracle))
    ensures old(tx.state) == Open ==> tx.state == if cause.None? then Committed else RolledBack
    ensures old(tx.state) != Open ==> tx.state == old(tx.state)
  {
    err := cause;
    if err == None {
      err := tx.Commit();
      return;
    }
    var rollbackErr := tx.Rollback();
  }

  /** Calling the `finish` closure. One bound to a failed begin would dereference its nil transaction. */
  method Finish(f: Finisher, cause: Option<Error>) returns (err: Option<Error>)
    requires f.FinishOn? ==> f.tx != null && f.tx.kind == Transaction
    modifies Footprint(f)
    ensures f.PassThrough? ==> err == cause
    ensures f.FinishOn? ==> f.tx.log == old(f.tx.log) + [if cause.None? then Commit else Rollback]
    ensures f.FinishOn? ==> err == FinishOutcome(cause, CommitAnswer(old(f.tx.state), f.tx.oracle))
    ensures f.FinishOn? && old(f.tx.state) == Open ==> f.tx.state == if cause.None? then Committed else RolledBack
    ensures f.FinishOn? && old(f.tx.state) != Open ==> f.tx.state == old(f.tx.state)
  {
    if f.PassThrough? {
      err := cause;
    } else {
      err := FinishTx(f.tx, cause);
    }
  }

  /**
   * The protocol of this version: without begin capability the unit of work runs
   * directly on `db`, and its result is returned as it is.
   */
  twostate predicate Finished<T>(db: Executor, new tx: Executor?, events: seq<Event>, new work: Result<T, Error>, new r: Result<T, Error>)
    reads db, tx
  {
    if db.kind == Transaction then tx == db && db.log == old(db.log) + events && db.state == old(db.state) && r == work
    else Entity.RanInTransaction(db, tx, events, work, r)
  }

  /** The answers a unit of work begun on `db` sees: its own when it runs in place, the transaction's otherwise. */
  function WorkAnswers(db: Executor): Answers
  {
    if db.kind == Transaction then db.oracle.answers else db.oracle.txAnswers
  }
}
