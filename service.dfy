/**
 * internal/service/item/service.go: the item service, a thin adapter that
 * forwards each request to the item data-access object.
 */
module ItemService {
  import opened Wrappers
  import opened Sql
  import opened ItemEntity

  datatype Service = Service(dao: ItemDao)

  /** http.StatusNoContent. */
  const StatusNoContent := 204

  datatype GetRequest = GetRequest(itemID: string)

  /** CreateRequest: the parent and customer id travel with the embedded item, which alone is stored. */
  datatype CreateRequest = CreateRequest(parent: string, customerID: string, entity: Item)

  method Get(srv: Service, req: GetRequest) returns (r: Result<Item, Error>)
    modifies srv.dao.db
    ensures Got(srv.dao, req.itemID, r)
  {
    r := ItemEntity.Get(srv.dao, req.itemID);
  }

  method Create(srv: Service, req: CreateRequest) returns (r: Result<Item, Error>, ghost tx: Executor?)
    modifies srv.dao.db
    ensures Created(srv.dao, req.entity, tx, r)
  {
    r, tx := ItemEntity.Create(srv.dao, req.entity);
  }

  method List(srv: Service, req: ListRequest) returns (r: Result<ListResponse, Error>)
    modifies srv.dao.db
    ensures Listed(srv.dao, req, r)
  {
    r := ItemEntity.List(srv.dao, req);
  }

  method Update(srv: Service, req: UpdateRequest, serialized: Result<map<string, Value>, Error>)
    returns (r: Result<Item, Error>, ghost fields: seq<(string, Value)>, ghost tx: Executor?)
    modifies srv.dao.db
    ensures Updated(srv.dao, req, serialized, fields, tx, r)
  {
    r, fields, tx := ItemEntity.Update(srv.dao, req, serialized);
  }

  /** Delete: 204 when the delete succeeds; otherwise code 0 and the dao's error. */
  method Delete(srv: Service, req: DeleteRequest) returns (code: int, err: Option<Error>)
    modifies srv.dao.db
    ensures Deleted(srv.dao, req, err)
    ensures code == (if err.None? then StatusNoContent else 0)
  {
    code := 0;
    err := ItemEntity.Delete(srv.dao, req);
    if err.None? {
      code := StatusNoContent;
    }
  }
}
