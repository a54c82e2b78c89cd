/**
 * internal/service/entity/entity.go: the field mask, the UPDATE statement
 * builder, and the first version of the transaction helper (BeginTx that
 * fails without begin capability, FinishTx). The item data-access object
 * uses this version.
 */
module Entity {
  import opened Wrappers
  import opened Sql
  import opened Text

  /** FieldMask: the paths of the serialised fields an update should write. */
  datatype FieldMask = FieldMask(paths: seq<string>)

  /** ListRequestFragment: the parent, page size and page token of a list request. */
  datatype ListRequestFragment = ListRequestFragment(parent: string, pageSize: int, pageToken: string)

  /**
   * The fields an update writes, taken from the serialised entity `m`: with an
   * empty mask every field but "id"; otherwise exactly the mask paths `m` has,
   * the others dropped without an error. No field is invented and no value changed.
   */
  function Project(mask: FieldMask, m: map<string, Value>): (r: map<string, Value>)
    ensures r.Keys <= m.Keys
    ensures forall k :: k in r ==> r[k] == m[k]
    ensures |mask.paths| == 0 ==> r.Keys == m.Keys - {"id"}
    ensures |mask.paths| > 0 ==> forall k :: k in r <==> k in mask.paths && k in m
  {
    if |mask.paths| == 0 then m - {"id"}
    else map k | k in m && k in mask.paths :: m[k]
  }

  /**
   * FieldMask.ToMap. `serialized` is the entity after its JSON round trip
   * (json.Marshal then json.Unmarshal into a map), or the error either reported,
   * which is returned with no map.
   */
  method ToMap(mask: FieldMask, serialized: Result<map<string, Value>, Error>)
    returns (r: Result<map<string, Value>, Error>)
    ensures serialized.Err? ==> r == Err(serialized.error)
    ensures serialized.Ok? ==> r == Ok(Project(mask, serialized.value))
  {
    if serialized.Err? {
      return Err(serialized.error);
    }
    var mFields := serialized.value;
    if |mask.paths| > 0 {
      var m: map<string, Value> := map[];
      for i := 0 to |mask.paths|
        invariant forall k :: k in m <==> k in mask.paths[..i] && k in mFields
        invariant forall k :: k in m ==> m[k] == mFields[k]
      {
        var path := mask.paths[i];
        assert mask.paths[..i + 1] == mask.paths[..i] + [path];
        if path in mFields {
          m := m[path := mFields[path]];
        }
      }
      assert mask.paths[..|mask.paths|] == mask.paths;
      ghost var projected := Project(mask, mFields);
      assert m.Keys == projected.Keys;
      assert forall k :: k in m ==> m[k] == projected[k];
      assert m == projected;
      r := Ok(m);
    } else {
      mFields := mFields - {"id"};
      r := Ok(mFields);
    }
  }

  /** The field names of an ordered field list. */
  function KeysOf(fields: seq<(string, Value)>): set<string>
  {
    if |fields| == 0 then {} else KeysOf(fields[..|fields| - 1]) + {fields[|fields| - 1].0}
  }

  lemma {:induction false} KeysOfSnoc(fields: seq<(string, Value)>, f: (string, Value))
    ensures KeysOf(fields + [f]) == KeysOf(fields) + {f.0}
  {
    assert (fields + [f])[..|fields|] == fields;
  }

  /** A name is among the keys exactly when some entry carries it. */
  lemma {:induction false} KeysOfIndex(fields: seq<(string, Value)>, k: string)
    ensures k in KeysOf(fields) <==> exists i :: 0 <= i < |fields| && fields[i].0 == k
  {
    if |fields| > 0 {
      var init := fields[..|fields| - 1];
      KeysOfIndex(init, k);
      if exists i :: 0 <= i < |fields| && fields[i].0 == k {
        var i :| 0 <= i < |fields| && fields[i].0 == k;
        if i < |init| {
          assert init[i].0 == k;
        }
      }
    }
  }

  /** `fields` lists every entry of `m` exactly once, in some order. */
  predicate Enumerates(fields: seq<(string, Value)>, m: map<string, Value>)
  {
    && (forall i, j :: 0 <= i < j < |fields| ==> fields[i].0 != fields[j].0)
    && (forall i :: 0 <= i < |fields| ==> fields[i].0 in m && m[fields[i].0] == fields[i].1)
    && (forall k :: k in m ==> k in KeysOf(fields))
  }

  /**
   * The order in which `for field, value := range m` visits a map. Go leaves it
   * unspecified, so each step takes any entry not yet visited.
   */
  method Entries(m: map<string, Value>) returns (fields: seq<(string, Value)>)
    ensures Enumerates(fields, m)
  {
    fields := [];
    var rest := m;
    while rest != map[]
      invariant forall k :: k in rest ==> k in m && rest[k] == m[k]
      invariant forall i :: 0 <= i < |fields| ==> fields[i].0 in m && m[fields[i].0] == fields[i].1 && fields[i].0 !in rest
      invariant forall i, j :: 0 <= i < j < |fields| ==> fields[i].0 != fields[j].0
      invariant forall k :: k in m ==> k in rest || k in KeysOf(fields)
      decreases |rest|
    {
      var k :| k in rest;
      KeysOfSnoc(fields, (k, rest[k]));
      fields := fields + [(k, rest[k])];
      rest := rest - {k};
    }
  }

  /** An enumeration has one element per map entry. */
  lemma {:induction false} EnumeratesSize(fields: seq<(string, Value)>, m: map<string, Value>)
    requires Enumerates(fields, m)
    ensures |fields| == |m|
  {
    DistinctKeysCount(fields);
    forall k | k in KeysOf(fields) ensures k in m {
      KeysOfIndex(fields, k);
    }
    assert KeysOf(fields) == m.Keys;
  }

  lemma {:induction false} DistinctKeysCount(fields: seq<(string, Value)>)
    requires forall i, j :: 0 <= i < j < |fields| ==> fields[i].0 != fields[j].0
    ensures |KeysOf(fields)| == |fields|
  {
    if |fields| > 0 {
      var init := fields[..|fields| - 1];
      var last := fields[|fields| - 1].0;
      DistinctKeysCount(init);
      KeysOfIndex(init, last);
      assert last !in KeysOf(init);
    }
  }

  /** The assignment `k = ?` written for each field, in field order. */
  function Assignments(fields: seq<(string, Value)>): (r: seq<string>)
    ensures |r| == |fields|
  {
    seq(|fields|, i requires 0 <= i < |fields| => fields[i].0 + " = ?")
  }

  /** The bound values, in field order. */
  function Values(fields: seq<(string, Value)>): (r: seq<Value>)
    ensures |r| == |fields|
  {
    seq(|fields|, i requires 0 <= i < |fields| => fields[i].1)
  }

  /** One turn of mapJoin's loop: the separator (except first), the field and " = ?" extend the join by one assignment. */
  lemma WriteStep(prefix: string, done: seq<string>, field: string, sep: string)
    ensures prefix + Join(done + [field + " = ?"], sep)
         == (if |done| > 0 then prefix + Join(done, sep) + sep else prefix + Join(done, sep)) + field + " = ?"
  {
    JoinSnoc(done, field + " = ?", sep);
  }

  /**
   * mapJoin: writes `k = ?` for each field with `sep` only between entries
   * (the `flag` marks that one has been written) and returns the values in the
   * same order as the keys it wrote.
   */
  method MapJoin(sb: Builder, fields: seq<(string, Value)>, sep: string) returns (args: seq<Value>)
    modifies sb
    ensures sb.text == old(sb.text) + Join(Assignments(fields), sep)
    ensures args == Values(fields)
  {
    var flag := false;
    args := [];
    for i := 0 to |fields|
      invariant sb.text == old(sb.text) + Join(Assignments(fields[..i]), sep)
      invariant args == Values(fields[..i])
      invariant flag <==> i > 0
    {
      var (field, value) := fields[i];
      ghost var done := Assignments(fields[..i]);
      assert Assignments(fields[..i + 1]) == done + [field + " = ?"];
      assert Values(fields[..i + 1]) == Values(fields[..i]) + [value];
      if flag {
        sb.WriteString(sep);
      } else {
        flag := true;
      }
      sb.WriteString(field);
      sb.WriteString(" = ?");
      args := args + [value];
      WriteStep(old(sb.text), done, field, sep);
    }
    assert fields[..|fields|] == fields;
  }

  /** The UPDATE statement SQLUpdate builds, with its arguments. */
  function UpdateStmt(table: string, id: Value, fields: seq<(string, Value)>): Stmt
  {
    Stmt("update " + table + " set " + Join(Assignments(fields), ", ") + " where id = ?", Values(fields) + [id])
  }

  /**
   * SQLUpdate: `update <table> set k1 = ?, k2 = ? where id = ?` and its
   * arguments, each field's value at its key's position and `id` last.
   */
  method SQLUpdate(table: string, id: Value, fields: seq<(string, Value)>) returns (script: string, args: seq<Value>)
    ensures script == "update " + table + " set " + Join(Assignments(fields), ", ") + " where id = ?"
    ensures |args| == |fields| + 1 && args[|fields|] == id
    ensures forall i :: 0 <= i < |fields| ==> args[i] == fields[i].1
    ensures Stmt(script, args) == UpdateStmt(table, id, fields)
  {
    var sb := new Builder();
    sb.WriteString("update ");
    sb.WriteString(table);
    sb.WriteString(" set ");
    var joined := MapJoin(sb, fields, ", ");
    args := [] + joined;
    sb.WriteString(" where id = ?");
    args := args + [id];
    script := sb.text;
  }

  /** With no fields the set clause is empty: the statement still ends with the id predicate. */
  lemma SQLUpdateNoFields(table: string)
    ensures "update " + table + " set " + Join(Assignments([]), ", ") + " where id = ?"
            == "update " + table + " set  where id = ?"
  {
  }

  /**
   * BeginTx (entity.go): a transaction from an executor that can begin one; an
   * error and no transaction otherwise.
   */
  method BeginTx(db: Executor) returns (tx: Executor?, err: Option<Error>)
    modifies db
    ensures db.kind == Transaction ==> tx == null && err == Some(NoBeginTx) && db.log == old(db.log)
    ensures db.kind == Database ==> db.log == old(db.log) + [Begin]
    ensures db.state == old(db.state)
    ensures db.kind == Database && db.oracle.beginErr.Some? ==> tx == null && err == db.oracle.beginErr
    ensures db.kind == Database && db.oracle.beginErr.None? ==>
              err == None && tx != null && fresh(tx) && tx.kind == Transaction
              && tx.oracle == TxOracle(db.oracle) && tx.log == [] && tx.state == Open
  {
    if db.kind == Database {
      tx, err := db.BeginTx();
    } else {
      tx, err := null, Some(NoBeginTx);
    }
  }

  /**
   * A unit of work begun on connection pool `db` ran in the fresh transaction `tx`,
   * issuing `events` on it, produced `work`, and was then finished: committed
   * when `work` succeeded, rolled back otherwise, with `r` the settled result.
   * A failed begin returns its error, and no transaction exists.
   */
  twostate predicate RanInTransaction<T>(db: Executor, new tx: Executor?, events: seq<Event>, new work: Result<T, Error>, new r: Result<T, Error>)
    reads db, tx
  {
    && db.kind == Database
    && db.log == old(db.log) + [Begin] && db.state == old(db.state)
    && (db.oracle.beginErr.Some? ==> tx == null && r == Err(db.oracle.beginErr.value))
    && (db.oracle.beginErr.None? ==>
          && tx != null && fresh(tx) && tx.kind == Transaction && tx.oracle == TxOracle(db.oracle)
          && tx.log == events + [if work.Ok? then Commit else Rollback]
          && tx.state == (if work.Ok? then Committed else RolledBack)
          && r == Settle(work, FinishOutcome(ErrorOf(work), tx.oracle.commit)))
  }

  /**
   * The protocol of this version: an executor that cannot begin a transaction
   * makes the unit of work fail with NoBeginTx before any statement runs.
   */
  twostate predicate FinishedTx<T>(db: Executor, new tx: Executor?, events: seq<Event>, new work: Result<T, Error>, new r: Result<T, Error>)
    reads db, tx
  {
    if db.kind == Transaction then tx == null && r == Err(NoBeginTx) && db.log == old(db.log) && db.state == old(db.state)
    else RanInTransaction(db, tx, events, work, r)
  }

  /**
   * FinishTx: commits when there is no cause and returns what the commit reports;
   * otherwise rolls back and returns the cause, whatever the rollback reports.
   */
  method FinishTx(tx: Executor, cause: Option<Error>) returns (err: Option<Error>)
    requires tx.kind == Transaction
    modifies tx
    ensures tx.log == old(tx.log) + [if cause.None? then Commit else Rollback]
    ensures err == FinishOutcome(cause, CommitAnswer(old(tx.state), tx.oracle))
    ensures old(tx.state) == Open ==> tx.state == if cause.None? then Committed else RolledBack
    ensures old(tx.state) != Open ==> tx.state == old(tx.state)
  {
    err := cause;
    if err == None {
      err := tx.Commit();
      return;
    }
    var rollbackErr := tx.Rollback();
  }
}
