/**
 * internal/service/entity/general.go: the data-access object generic over an
 * entity type `E`, bound to one table, its column lists and a row-scan function.
 */
module General {
  import opened Wrappers
  import opened Sql
  import opened Text
  import Entity
  import EntityDao

  /** The method set of the Entity constraint. */
  datatype EntityOps<!E> = EntityOps(getID: E -> string, insertValues: E -> seq<Value>)

  /** Dao[E]. */
  datatype Dao<E> = Dao(
    db: Executor,
    table: string,
    allFields: string,
    insertFields: string,
    scanAllFields: Scanner -> Result<E, Error>)

  /** WithDB: the same Dao bound to another executor. */
  function WithDB<E>(d: Dao<E>, db: Executor): (r: Dao<E>)
    ensures r.db == db
    ensures r.table == d.table && r.allFields == d.allFields && r.insertFields == d.insertFields
    ensures r.scanAllFields == d.scanAllFields
  {
    d.(db := db)
  }

  function GetStmt<E>(d: Dao<E>, id: string): Stmt
  {
    Stmt("select " + d.allFields + " from " + d.table + " where id = ? limit 1", [Str(id)])
  }

  /** What Get yields on a database answering with `a`. */
  function GetAnswer<E>(d: Dao<E>, id: string, a: Answers): Result<E, Error>
  {
    d.scanAllFields(a.queryRow(GetStmt(d, id)))
  }

  /** Get: one single-row query for `id`, scanned with the Dao's scan function. */
  method Get<E>(d: Dao<E>, id: string) returns (r: Result<E, Error>)
    modifies d.db
    ensures d.db.log == old(d.db.log) + [QueryRow(GetStmt(d, id))] && d.db.state == old(d.db.state)
    ensures r == GetAnswer(d, id, d.db.oracle.answers)
  {
    var row := d.db.QueryRow(GetStmt(d, id));
    r := d.scanAllFields(row);
  }

  /** `n` placeholders. */
  function Marks(n: nat): seq<string>
  {
    seq(n, _ => "?")
  }

  /** The values list of the insert: `?` followed by one `,?` per comma of the column list. */
  function Holders(insertFields: string): string
  {
    "?" + Repeat(",?", Count(insertFields, ','))
  }

  lemma {:induction false} RepeatedMarks(n: nat)
    ensures "?" + Repeat(",?", n) == Join(Marks(n + 1), ",")
    ensures Count(Repeat(",?", n), '?') == n
    ensures Count(Repeat(",?", n), ',') == n
  {
    if n > 0 {
      RepeatedMarks(n - 1);
      assert Marks(n + 1) == ["?"] + Marks(n);
      Text.JoinFront("?", Marks(n), ",");
      CountAppend(",?", Repeat(",?", n - 1), '?');
      CountAppend(",?", Repeat(",?", n - 1), ',');
      assert "?" + Repeat(",?", n) == "?" + "," + ("?" + Repeat(",?", n - 1));
    } else {
      assert Marks(1) == ["?"];
    }
  }

  /**
   * The insert has one placeholder per column named in `insertFields` (commas
   * plus one), separated by commas.
   */
  lemma HoldersMatchColumns(insertFields: string)
    ensures Holders(insertFields) == Join(Marks(Count(insertFields, ',') + 1), ",")
    ensures Count(Holders(insertFields), '?') == Count(insertFields, ',') + 1
    ensures Count(Holders(insertFields), ',') == Count(insertFields, ',')
  {
    var n := Count(insertFields, ',');
    RepeatedMarks(n);
    CountAppend("?", Repeat(",?", n), '?');
    CountAppend("?", Repeat(",?", n), ',');
  }

  function InsertStmt<E>(d: Dao<E>, values: seq<Value>): Stmt
  {
    Stmt("insert into " + d.table + " (" + d.insertFields + ") values (" + Holders(d.insertFields) + ")", values)
  }

  /** The statements Create's unit of work issues on the executor answering with `a`. */
  function CreateEvents<E>(d: Dao<E>, ops: EntityOps<E>, e: E, a: Answers): seq<Event>
  {
    var ins := InsertStmt(d, ops.insertValues(e));
    var sr := a.exec(ins);
    if sr.Ok? && sr.value.lastInsertId.Ok? then [Exec(ins), QueryRow(GetStmt(d, FormatInt(sr.value.lastInsertId.value)))]
    else [Exec(ins)]
  }

  /** The result of Create's unit of work: the row re-read by the base-10 generated id. */
  function CreateWork<E>(d: Dao<E>, ops: EntityOps<E>, e: E, a: Answers): Result<E, Error>
  {
    var sr := a.exec(InsertStmt(d, ops.insertValues(e)));
    if sr.Err? then Err(sr.error)
    else if sr.value.lastInsertId.Err? then Err(sr.value.lastInsertId.error)
    else GetAnswer(d, FormatInt(sr.value.lastInsertId.value), a)
  }

  /**
   * Create: inserts the entity's insert values inside a transaction (or on the
   * executor itself when it cannot begin one), re-reads the new row through the
   * Dao rebound to that executor, and passes the outcome through finish once.
   */
  method Create<E>(d: Dao<E>, ops: EntityOps<E>, e: E) returns (r: Result<E, Error>, ghost tx: Executor?)
    modifies d.db
    ensures EntityDao.Finished(d.db, tx, CreateEvents(d, ops, e, EntityDao.WorkAnswers(d.db)),
                               CreateWork(d, ops, e, EntityDao.WorkAnswers(d.db)), r)
  {
    var x, finish, err := EntityDao.BeginTx(d.db);
    if err.Some? {
      r, tx := Err(err.value), null;
      return;
    }
    tx := x;
    var work: Result<E, Error>;
    var sr := x.Exec(InsertStmt(d, ops.insertValues(e)));
    if sr.Err? {
      work := Err(sr.error);
    } else if sr.value.lastInsertId.Err? {
      work := Err(sr.value.lastInsertId.error);
    } else {
      var sub := WithDB(d, x);
      work := Get(sub, FormatInt(sr.value.lastInsertId.value));
    }
    var finished := EntityDao.Finish(finish, ErrorOf(work));
    r := Settle(work, finished);
  }

  /** ListRequest: what GetPageSize and GetPageToken return. */
  datatype ListRequest = ListRequest(pageSize: int, pageToken: string)

  /** ListResponse[E]: the next page token (ListResponseFragment) and the items. */
  datatype ListResponse<E> = ListResponse(nextPageToken: string, items: seq<E>)

  /** The page query, bound to (page token, page size) in that order. */
  function ListStmt<E>(d: Dao<E>, req: ListRequest): Stmt
  {
    Stmt("select " + d.allFields + " from " + d.table + " where id > ? limit ?", [Str(req.pageToken), Int(req.pageSize)])
  }

  /** A query that yields nothing with page size 0: `res.Items[size-1]` would index -1. */
  predicate IndexesBeforeFirst<E>(d: Dao<E>, req: ListRequest)
  {
    && req.pageSize == 0
    && var q := d.db.oracle.answers.query(ListStmt(d, req));
    && q.Ok? && q.value.err.None? && ScanRows(d.scanAllFields, q.value.rows) == Ok([])
  }

  /**
   * List: one page query; the items are the scanned rows in order, and the
   * next page token is the last item's id exactly when the page is full.
   */
  method List<E>(d: Dao<E>, ops: EntityOps<E>, req: ListRequest) returns (r: Result<ListResponse<E>, Error>)
    requires !IndexesBeforeFirst(d, req)
    modifies d.db
    ensures d.db.log == old(d.db.log) + [Query(ListStmt(d, req))] && d.db.state == old(d.db.state)
    ensures var q := d.db.oracle.answers.query(ListStmt(d, req));
            q.Err? ==> r == Err(q.error)
    ensures var q := d.db.oracle.answers.query(ListStmt(d, req));
            q.Ok? && ScanRows(d.scanAllFields, q.value.rows).Err? ==> r == Err(ScanRows(d.scanAllFields, q.value.rows).error)
    ensures var q := d.db.oracle.answers.query(ListStmt(d, req));
            q.Ok? && ScanRows(d.scanAllFields, q.value.rows).Ok? && q.value.err.Some? ==> r == Err(q.value.err.value)
    ensures var q := d.db.oracle.answers.query(ListStmt(d, req));
            q.Ok? && ScanRows(d.scanAllFields, q.value.rows).Ok? && q.value.err.None? ==>
              && r.Ok? && r.value.items == ScanRows(d.scanAllFields, q.value.rows).value
              && (|r.value.items| == req.pageSize ==> r.value.nextPageToken == ops.getID(r.value.items[|r.value.items| - 1]))
              && (|r.value.items| != req.pageSize ==> r.value.nextPageToken == "")
  {
    var q := d.db.Query(ListStmt(d, req));
    if q.Err? {
      return Err(q.error);
    }
    var rows := q.value.rows;
    var items: seq<E> := [];
    var i := 0;
    while i < |rows|
      invariant 0 <= i <= |rows|
      invariant ScanRows(d.scanAllFields, rows[..i]) == Ok(items)
    {
      var e := d.scanAllFields(Scanner(Ok(rows[i])));
      assert rows[..i + 1][..i] == rows[..i];
      if e.Err? {
        ScanRowsAbort(d.scanAllFields, rows, i + 1);
        return Err(e.error);
      }
      items := items + [e.value];
      i := i + 1;
    }
    assert rows[..|rows|] == rows;
    if q.value.err.Some? {
      return Err(q.value.err.value);
    }
    var token := "";
    if |items| == req.pageSize {
      token := ops.getID(items[|items| - 1]);
    }
    r := Ok(ListResponse(token, items));
  }

  /** UpdateRequest[E]: the field mask, the id of the row, and the replacement entity. */
  datatype UpdateRequest<E> = UpdateRequest(updateMask: Entity.FieldMask, id: string, entity: E)

  /** A mask path as the validator names the field: its first rune upper-cased, the rest kept. */
  function UpperFirst(path: string): (name: string)
    requires |path| > 0
    ensures |name| == |path| && name[0] == ToUpper(path[0]) && name[1..] == path[1..]
  {
    [ToUpper(path[0])] + path[1..]
  }

  predicate NonEmptyPaths(paths: seq<string>)
  {
    forall p :: p in paths ==> |p| > 0
  }

  /** The field names handed to the validator, in mask order. */
  function PartialNames(paths: seq<string>): (names: seq<string>)
    requires NonEmptyPaths(paths)
    ensures |names| == |paths|
  {
    seq(|paths|, i requires 0 <= i < |paths| => UpperFirst(paths[i]))
  }

  /**
   * validate: `structPartial` is the validator's StructPartial, checking only
   * the named fields of the entity. An empty path would index its first rune
   * out of range.
   */
  method Validate<E>(req: UpdateRequest<E>, structPartial: (E, seq<string>) -> Option<Error>) returns (err: Option<Error>)
    requires NonEmptyPaths(req.updateMask.paths)
    ensures err == structPartial(req.entity, PartialNames(req.updateMask.paths))
  {
    var paths := req.updateMask.paths;
    var names := new string[|paths|];
    for i := 0 to |paths|
      invariant forall j :: 0 <= j < i ==> names[j] == UpperFirst(paths[j])
    {
      var runes := paths[i];
      assert runes in paths;
      runes := runes[0 := ToUpper(runes[0])];
      names[i] := runes;
      assert names[i] == UpperFirst(paths[i]);
    }
    assert names[..] == PartialNames(paths);
    err := structPartial(req.entity, names[..]);
  }

  /** The statements Update's unit of work issues on the executor answering with `a`. */
  function UpdateEvents<E>(d: Dao<E>, id: string, stmt: Stmt, a: Answers): seq<Event>
  {
    if a.exec(stmt).Ok? then [Exec(stmt), QueryRow(GetStmt(d, id))] else [Exec(stmt)]
  }

  /** The result of Update's unit of work: the row re-read by its id. */
  function UpdateWork<E>(d: Dao<E>, id: string, stmt: Stmt, a: Answers): Result<E, Error>
  {
    var ex := a.exec(stmt);
    if ex.Err? then Err(ex.error) else GetAnswer(d, id, a)
  }

  /**
   * Update: validation and ToMap come first, and their errors return before any
   * statement; then the UPDATE built from the projected fields (in the order the
   * map is ranged over) and the re-read run in one transaction.
   */
  method Update<E>(d: Dao<E>, req: UpdateRequest<E>, structPartial: (E, seq<string>) -> Option<Error>,
                   serialized: Result<map<string, Value>, Error>)
    returns (r: Result<E, Error>, ghost fields: seq<(string, Value)>, ghost tx: Executor?)
    requires NonEmptyPaths(req.updateMask.paths)
    modifies d.db
    ensures var invalid := structPartial(req.entity, PartialNames(req.updateMask.paths));
            invalid.Some? ==> r == Err(invalid.value) && unchanged(d.db)
    ensures var invalid := structPartial(req.entity, PartialNames(req.updateMask.paths));
            invalid.None? && serialized.Err? ==> r == Err(serialized.error) && unchanged(d.db)
    ensures var invalid := structPartial(req.entity, PartialNames(req.updateMask.paths));
            invalid.None? && serialized.Ok? ==>
              && Entity.Enumerates(fields, Entity.Project(req.updateMask, serialized.value))
              && var stmt := Entity.UpdateStmt(d.table, Str(req.id), fields);
                 EntityDao.Finished(d.db, tx, UpdateEvents(d, req.id, stmt, EntityDao.WorkAnswers(d.db)),
                                    UpdateWork(d, req.id, stmt, EntityDao.WorkAnswers(d.db)), r)
  {
    fields, tx := [], null;
    var err := Validate(req, structPartial);
    if err.Some? {
      return Err(err.value), fields, tx;
    }
    var m := Entity.ToMap(req.updateMask, serialized);
    if m.Err? {
      return Err(m.error), fields, tx;
    }
    var order := Entity.Entries(m.value);
    fields := order;
    r, tx := UpdateFields(d, req.id, order);
  }

  /** The transactional half of Update: the UPDATE of `fields` and the re-read of row `id`. */
  method UpdateFields<E>(d: Dao<E>, id: string, fields: seq<(string, Value)>) returns (r: Result<E, Error>, ghost tx: Executor?)
    modifies d.db
    ensures var stmt := Entity.UpdateStmt(d.table, Str(id), fields);
            EntityDao.Finished(d.db, tx, UpdateEvents(d, id, stmt, EntityDao.WorkAnswers(d.db)),
                               UpdateWork(d, id, stmt, EntityDao.WorkAnswers(d.db)), r)
  {
    var script, args := Entity.SQLUpdate(d.table, Str(id), fields);
    var x, finish, beginErr := EntityDao.BeginTx(d.db);
    if beginErr.Some? {
      return Err(beginErr.value), null;
    }
    tx := x;
    var work: Result<E, Error>;
    var ex := x.Exec(Stmt(script, args));
    if ex.Err? {
      work := Err(ex.error);
    } else {
      var sub := WithDB(d, x);
      work := Get(sub, id);
    }
    var finished := EntityDao.Finish(finish, ErrorOf(work));
    r := Settle(work, finished);
  }

  /** DeleteRequest: the row's id and the resource a NotFound reports. */
  datatype DeleteRequest = DeleteRequest(info: ResourceInfo, id: string)

  function DeleteStmt<E>(d: Dao<E>, id: string): Stmt
  {
    Stmt("delete from " + d.table + " where id = ?", [Str(id)])
  }

  /**
   * Delete: statement and row-count errors pass through; no affected row is a
   * NotFound carrying the request's resource; any other count is success.
   */
  method Delete<E>(d: Dao<E>, req: DeleteRequest) returns (err: Option<Error>)
    modifies d.db
    ensures d.db.log == old(d.db.log) + [Exec(DeleteStmt(d, req.id))] && d.db.state == old(d.db.state)
    ensures var ex := d.db.oracle.answers.exec(DeleteStmt(d, req.id));
            && (ex.Err? ==> err == Some(ex.error))
            && (ex.Ok? && ex.value.rowsAffected.Err? ==> err == Some(ex.value.rowsAffected.error))
            && (ex.Ok? && ex.value.rowsAffected == Ok(0) ==> err == Some(NotFound(req.info)))
            && (ex.Ok? && ex.value.rowsAffected.Ok? && ex.value.rowsAffected.value != 0 ==> err == None)
  {
    var sr := d.db.Exec(DeleteStmt(d, req.id));
    if sr.Err? {
      return Some(sr.error);
    }
    var num := sr.value.rowsAffected;
    if num.Err? {
      return Some(num.error);
    }
    err := None;
    if num.value == 0 {
      err := Some(NotFound(req.info));
    }
  }
}
