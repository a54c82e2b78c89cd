/**
 * internal/service/item/entity.go: the item record and its hand-written
 * data-access object over the `item` table. It uses the first version of the
 * transaction helper (Entity.BeginTx / Entity.FinishTx).
 */
module ItemEntity {
  import opened Wrappers
  import opened Sql
  import opened Text
  import Entity

  const AllFields := "id, title, price, num, create_time"

  /** The item Entity. Price (float64) and CreateTime (time.Time) are opaque values. */
  datatype Item = Item(id: int, title: string, price: Value, num: int, createTime: Value)

  /** A row holding `e`, its columns in AllFields order. */
  function Columns(e: Item): seq<Value>
  {
    [Int(e.id), Str(e.title), e.price, Int(e.num), e.createTime]
  }

  /**
   * scanAllFields: Scan(&ID, &Title, &Price, &Num, &CreateTime). A row that is an
   * error, has another column count, or whose id, title or num column has the
   * wrong kind fails.
   */
  function ScanAllFields(row: Scanner): (r: Result<Item, Error>)
    ensures row.columns.Err? ==> r == Err(row.columns.error)
    ensures r.Ok? ==> row.columns == Ok(Columns(r.value))
    ensures row.columns.Ok? && |row.columns.value| != 5 ==> r == Err(ScanMismatch)
  {
    if row.columns.Err? then Err(row.columns.error)
    else
      var cs := row.columns.value;
      if |cs| == 5 && cs[0].Int? && cs[1].Str? && cs[3].Int? then
        assert cs == Columns(Item(cs[0].i, cs[1].s, cs[2], cs[3].i, cs[4]));
        Ok(Item(cs[0].i, cs[1].s, cs[2], cs[3].i, cs[4]))
      else Err(ScanMismatch)
  }

  /** The scan targets follow AllFields: a row laid out from an item scans back to it... */
  lemma ScanColumns(e: Item)
    ensures ScanAllFields(Scanner(Ok(Columns(e)))) == Ok(e)
  {
  }

  /** ...and a row scans to `e` only when its columns are exactly id, title, price, num, create_time of `e`. */
  lemma ScanReadsColumns(row: Scanner, e: Item)
    requires ScanAllFields(row) == Ok(e)
    ensures row.columns == Ok(Columns(e))
  {
    var cs := row.columns.value;
    assert cs == [cs[0], cs[1], cs[2], cs[3], cs[4]];
  }

  /** dao: the item data-access object. */
  datatype ItemDao = ItemDao(db: Executor)

  function GetStmt(id: string): Stmt
  {
    Stmt("select " + AllFields + " from item where id = ? limit 1", [Str(id)])
  }

  /** Get's effect: one single-row query for `id` on `d`'s executor, scanned into an item. */
  twostate predicate Got(d: ItemDao, id: string, new r: Result<Item, Error>)
    reads d.db
  {
    && d.db.log == old(d.db.log) + [QueryRow(GetStmt(id))] && d.db.state == old(d.db.state)
    && r == ScanAllFields(d.db.oracle.answers.queryRow(GetStmt(id)))
  }

  method Get(d: ItemDao, id: string) returns (r: Result<Item, Error>)
    modifies d.db
    ensures Got(d, id, r)
  {
    var row := d.db.QueryRow(GetStmt(id));
    r := ScanAllFields(row);
  }

  /** The insert binds Title, Price and Num, in that order. */
  function InsertStmt(e: Item): Stmt
  {
    Stmt("insert into item (title, price, num) values (?, ?, ?)", [Str(e.title), e.price, Int(e.num)])
  }

  function CreateEvents(e: Item, a: Answers): seq<Event>
  {
    var sr := a.exec(InsertStmt(e));
    if sr.Ok? && sr.value.lastInsertId.Ok? then [Exec(InsertStmt(e)), QueryRow(GetStmt(FormatInt(sr.value.lastInsertId.value)))]
    else [Exec(InsertStmt(e))]
  }

  /** Create's unit of work: the row re-read, inside the transaction, by the base-10 generated id. */
  function CreateWork(e: Item, a: Answers): Result<Item, Error>
  {
    var sr := a.exec(InsertStmt(e));
    if sr.Err? then Err(sr.error)
    else if sr.value.lastInsertId.Err? then Err(sr.value.lastInsertId.error)
    else ScanAllFields(a.queryRow(GetStmt(FormatInt(sr.value.lastInsertId.value))))
  }

  /** Create's effect: the insert and re-read in one transaction, committed iff both succeeded. */
  twostate predicate Created(d: ItemDao, e: Item, new tx: Executor?, new r: Result<Item, Error>)
    reads d.db, tx
  {
    Entity.FinishedTx(d.db, tx, CreateEvents(e, d.db.oracle.txAnswers), CreateWork(e, d.db.oracle.txAnswers), r)
  }

  method Create(d: ItemDao, e: Item) returns (r: Result<Item, Error>, ghost tx: Executor?)
    modifies d.db
    ensures Created(d, e, tx, r)
  {
    var x, err := Entity.BeginTx(d.db);
    if err.Some? {
      return Err(err.value), null;
    }
    tx := x;
    var sub := ItemDao(x);
    var work: Result<Item, Error>;
    var sr := x.Exec(InsertStmt(e));
    if sr.Err? {
      work := Err(sr.error);
    } else if sr.value.lastInsertId.Err? {
      work := Err(sr.value.lastInsertId.error);
    } else {
      work := Get(sub, FormatInt(sr.value.lastInsertId.value));
    }
    var finished := Entity.FinishTx(x, ErrorOf(work));
    r := Settle(work, finished);
  }

  /** ListRequest. */
  datatype ListRequest = ListRequest(fragment: Entity.ListRequestFragment)

  /** ListResponse: the next page token and the items. */
  datatype ListResponse = ListResponse(nextPageToken: string, items: seq<Item>)

  function ListStmt(pageToken: string, pageSize: int): Stmt
  {
    Stmt("select " + AllFields + " from item where id > ? limit ?", [Str(pageToken), Int(pageSize)])
  }

  /** The page size a request is served with: 0 means 20. */
  function PageSizeOf(req: ListRequest): (size: int)
    ensures size != 0
    ensures req.fragment.pageSize != 0 ==> size == req.fragment.pageSize
  {
    if req.fragment.pageSize == 0 then 20 else req.fragment.pageSize
  }

  /** The page token a request is served with: empty means "0". */
  function PageTokenOf(req: ListRequest): (token: string)
    ensures token != ""
    ensures req.fragment.pageToken != "" ==> token == req.fragment.pageToken
  {
    if req.fragment.pageToken == "" then "0" else req.fragment.pageToken
  }

  /** The defaulted page size is never 0, so a full page always has a last item. */
  lemma PageSizeNeverZero(req: ListRequest)
    ensures PageSizeOf(req) != 0
    ensures req.fragment.pageSize != 0 ==> PageSizeOf(req) == req.fragment.pageSize
  {
  }

  /**
   * List's effect: one page query after defaulting; the items are the rows scanned
   * in order, and the next page token is the base-10 id of the last item exactly
   * when the page holds PageSizeOf(req) items.
   */
  twostate predicate Listed(d: ItemDao, req: ListRequest, new r: Result<ListResponse, Error>)
    reads d.db
  {
    var stmt := ListStmt(PageTokenOf(req), PageSizeOf(req));
    var q := d.db.oracle.answers.query(stmt);
    && d.db.log == old(d.db.log) + [Query(stmt)] && d.db.state == old(d.db.state)
    && (q.Err? ==> r == Err(q.error))
    && (q.Ok? && ScanRows(ScanAllFields, q.value.rows).Err? ==> r == Err(ScanRows(ScanAllFields, q.value.rows).error))
    && (q.Ok? && ScanRows(ScanAllFields, q.value.rows).Ok? && q.value.err.Some? ==> r == Err(q.value.err.value))
    && (q.Ok? && ScanRows(ScanAllFields, q.value.rows).Ok? && q.value.err.None? ==>
          && r.Ok? && r.value.items == ScanRows(ScanAllFields, q.value.rows).value
          && (|r.value.items| == PageSizeOf(req) ==>
                |r.value.items| > 0 && r.value.nextPageToken == FormatInt(r.value.items[|r.value.items| - 1].id))
          && (|r.value.items| != PageSizeOf(req) ==> r.value.nextPageToken == ""))
  }

  method List(d: ItemDao, req: ListRequest) returns (r: Result<ListResponse, Error>)
    modifies d.db
    ensures Listed(d, req, r)
  {
    var req := req;
    if req.fragment.pageSize == 0 {
      req := req.(fragment := req.fragment.(pageSize := 20));
    }
    if req.fragment.pageToken == "" {
      req := req.(fragment := req.fragment.(pageToken := "0"));
    }
    var q := d.db.Query(ListStmt(req.fragment.pageToken, req.fragment.pageSize));
    if q.Err? {
      return Err(q.error);
    }
    var rows := q.value.rows;
    var items: seq<Item> := [];
    var i := 0;
    while i < |rows|
      invariant 0 <= i <= |rows|
      invariant ScanRows(ScanAllFields, rows[..i]) == Ok(items)
    {
      var e := ScanAllFields(Scanner(Ok(rows[i])));
      assert rows[..i + 1][..i] == rows[..i];
      if e.Err? {
        ScanRowsAbort(ScanAllFields, rows, i + 1);
        return Err(e.error);
      }
      items := items + [e.value];
      i := i + 1;
    }
    assert rows[..|rows|] == rows;
    if q.value.err.Some? {
      return Err(q.value.err.value);
    }
    var token := "";
    if |items| == req.fragment.pageSize {
      token := FormatInt(items[|items| - 1].id);
    }
    r := Ok(ListResponse(token, items));
  }

  /** UpdateRequest: the item's id, the field mask and the replacement item. */
  datatype UpdateRequest = UpdateRequest(itemID: string, updateMask: Entity.FieldMask, item: Item)

  function UpdateEvents(id: string, stmt: Stmt, a: Answers): seq<Event>
  {
    if a.exec(stmt).Ok? then [Exec(stmt), QueryRow(GetStmt(id))] else [Exec(stmt)]
  }

  /** Update's unit of work: the row re-read, inside the transaction, by its id. */
  function UpdateWork(id: string, stmt: Stmt, a: Answers): Result<Item, Error>
  {
    var ex := a.exec(stmt);
    if ex.Err? then Err(ex.error) else ScanAllFields(a.queryRow(GetStmt(id)))
  }

  /**
   * Update's effect. `serialized` is the item's JSON round trip: its failure
   * returns before any transaction. Otherwise `fields` is the projection in the
   * order the map is ranged over, and SQLUpdate("item", ItemID, fields) and the
   * re-read run in one transaction.
   */
  twostate predicate Updated(d: ItemDao, req: UpdateRequest, serialized: Result<map<string, Value>, Error>,
                             new fields: seq<(string, Value)>, new tx: Executor?, new r: Result<Item, Error>)
    reads d.db, tx
  {
    && (serialized.Err? ==> r == Err(serialized.error) && d.db.log == old(d.db.log) && d.db.state == old(d.db.state))
    && (serialized.Ok? ==>
          && Entity.Enumerates(fields, Entity.Project(req.updateMask, serialized.value))
          && var stmt := Entity.UpdateStmt("item", Str(req.itemID), fields);
             Entity.FinishedTx(d.db, tx, UpdateEvents(req.itemID, stmt, d.db.oracle.txAnswers),
                               UpdateWork(req.itemID, stmt, d.db.oracle.txAnswers), r))
  }

  method Update(d: ItemDao, req: UpdateRequest, serialized: Result<map<string, Value>, Error>)
    returns (r: Result<Item, Error>, ghost fields: seq<(string, Value)>, ghost tx: Executor?)
    modifies d.db
    ensures Updated(d, req, serialized, fields, tx, r)
  {
    fields, tx := [], null;
    var m := Entity.ToMap(req.updateMask, serialized);
    if m.Err? {
      return Err(m.error), fields, tx;
    }
    var order := Entity.Entries(m.value);
    fields := order;
    var script, args := Entity.SQLUpdate("item", Str(req.itemID), order);
    var x, err := Entity.BeginTx(d.db);
    if err.Some? {
      return Err(err.value), fields, null;
    }
    tx := x;
    var sub := ItemDao(x);
    var work: Result<Item, Error>;
    var ex := x.Exec(Stmt(script, args));
    if ex.Err? {
      work := Err(ex.error);
    } else {
      work := Get(sub, req.itemID);
    }
    var finished := Entity.FinishTx(x, ErrorOf(work));
    r := Settle(work, finished);
  }

  /** DeleteRequest. */
  datatype DeleteRequest = DeleteRequest(itemID: string)

  function DeleteStmt(id: string): Stmt
  {
    Stmt("delete from item where id = ?", [Str(id)])
  }

  /** The NotFound a delete of no row reports. */
  function Missing(id: string): Error
  {
    NotFound(ResourceInfo("item", "items/" + id))
  }

  /**
   * Delete's effect: statement and row-count errors pass through; no affected row
   * is NotFound for "items/<id>"; any other count is success.
   */
  twostate predicate Deleted(d: ItemDao, req: DeleteRequest, new err: Option<Error>)
    reads d.db
  {
    var ex := d.db.oracle.answers.exec(DeleteStmt(req.itemID));
    && d.db.log == old(d.db.log) + [Exec(DeleteStmt(req.itemID))] && d.db.state == old(d.db.state)
    && (ex.Err? ==> err == Some(ex.error))
    && (ex.Ok? && ex.value.rowsAffected.Err? ==> err == Some(ex.value.rowsAffected.error))
    && (ex.Ok? && ex.value.rowsAffected == Ok(0) ==> err == Some(Missing(req.itemID)))
    && (ex.Ok? && ex.value.rowsAffected.Ok? && ex.value.rowsAffected.value != 0 ==> err == None)
  }

  method Delete(d: ItemDao, req: DeleteRequest) returns (err: Option<Error>)
    modifies d.db
    ensures Deleted(d, req, err)
  {
    var sr := d.db.Exec(DeleteStmt(req.itemID));
    if sr.Err? {
      return Some(sr.error);
    }
    var num := sr.value.rowsAffected;
    if num.Err? {
      return Some(num.error);
    }
    err := None;
    if num.value == 0 {
      err := Some(Missing(req.itemID));
    }
  }
}
