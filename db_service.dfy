/** The database service: option and argument checks, connection state, and
    the contract of get/query/upsert/delete over the store. The store's
    container is modelled as a map from (id, partition key) to document;
    everything else the vendor SDK does is left opaque. */
module DbServices {
  import opened Base
  import opened Text
  import opened Dicts
  import opened Json
  import opened Queries

  /** `DbOptions(endpoint, key, databaseId, containerId)`. */
  datatype DbOptions = DbOptions(endpoint: Option<string>, key: Option<string>,
                                 databaseId: Option<string>, containerId: Option<string>)

  const OptionsMissing := TypeError("dbOptions cannot be 'None'.")
  const EndpointMissing := ValueError("The endpoint must be defined.")
  const KeyMissing := ValueError("The key must be defined.")
  const DatabaseIdMissing := ValueError("The database id must be defined.")
  const ContainerIdMissing := ValueError("The container id must be defined.")
  const IdMissing := ValueError("id must be defined.")
  const PartitionKeyMissing := ValueError("partitionKey must be defined.")
  const QueryMissing := TypeError("'query' must be defined.")
  const ItemMissing := TypeError("The item must be defined.")

  /** The store's "not found" (a `CosmosResourceNotFoundError`, HTTP 404). */
  const NotFound := CosmosHttpResponseError(404, "Resource Not Found")
  /** The store's rejection of a document without a usable id or partition key. */
  const BadRequest := CosmosHttpResponseError(400, "Bad Request")

  /** `self.container.<name>(...)` before `connect`: the attribute is `None`. */
  function NotConnected(name: string): Error {
    AttributeError("'NoneType' object has no attribute '" + name + "'")
  }

  /** `__validate_db_options`: `None` options raise `TypeError`; then each of
      endpoint, key, database id and container id, in that order, must be
      neither empty, `None` nor whitespace-only. */
  function ValidateDbOptions(options: Option<DbOptions>): (r: Check)
    ensures r.Pass? <==> options.Some? && !IsBlank(options.value.endpoint) && !IsBlank(options.value.key) &&
                         !IsBlank(options.value.databaseId) && !IsBlank(options.value.containerId)
    ensures options.None? ==> r == Fail(OptionsMissing)
    ensures options.Some? && IsBlank(options.value.endpoint) ==> r == Fail(EndpointMissing)
    ensures (options.Some? && !IsBlank(options.value.endpoint) && IsBlank(options.value.key)) ==> r == Fail(KeyMissing)
    ensures (options.Some? && !IsBlank(options.value.endpoint) && !IsBlank(options.value.key) &&
             IsBlank(options.value.databaseId)) ==> r == Fail(DatabaseIdMissing)
    ensures (options.Some? && !IsBlank(options.value.endpoint) && !IsBlank(options.value.key) &&
             !IsBlank(options.value.databaseId) && IsBlank(options.value.containerId)) ==> r == Fail(ContainerIdMissing)
  {
    if options.None? then Fail(OptionsMissing)
    else
      var o := options.value;
      if IsBlank(o.endpoint) then Fail(EndpointMissing)
      else if IsBlank(o.key) then Fail(KeyMissing)
      else if IsBlank(o.databaseId) then Fail(DatabaseIdMissing)
      else if IsBlank(o.containerId) then Fail(ContainerIdMissing)
      else Pass
  }

  /** `__validate_id_and_partition_key`: the id first, then the partition key. */
  function ValidateIdAndPartitionKey(id: Option<string>, partitionKey: Option<string>): (r: Check)
    ensures r.Pass? <==> !IsBlank(id) && !IsBlank(partitionKey)
    ensures IsBlank(id) ==> r == Fail(IdMissing)
    ensures !IsBlank(id) && IsBlank(partitionKey) ==> r == Fail(PartitionKeyMissing)
  {
    if IsBlank(id) then Fail(IdMissing)
    else if IsBlank(partitionKey) then Fail(PartitionKeyMissing)
    else Pass
  }

  /** Where a document lives in the container. */
  datatype ItemKey = ItemKey(id: string, partitionKey: string)

  /** What the store's query engine is handed: the text, the parameters
      (passed only when there are some) and the cross-partition flag. */
  datatype QueryRequest = QueryRequest(queryStr: string, parameters: Option<seq<Param>>, enableCrossPartitionQuery: bool)

  /** The store's query engine, which the model does not interpret. */
  type Engine = (map<ItemKey, Dict>, QueryRequest) -> seq<Dict>

  /** What `get(id, partitionKey)` returns on a container holding `items`:
      bad arguments raise `ValueError`; a missing container raises; a missing
      document is reported as `None` (the store's error is swallowed);
      otherwise the document as JSON. */
  function GetResult(connected: bool, items: map<ItemKey, Dict>, id: Option<string>, partitionKey: Option<string>)
    : (r: Result<Option<string>>)
    ensures ValidateIdAndPartitionKey(id, partitionKey).Fail? ==> r == Failure(ValidateIdAndPartitionKey(id, partitionKey).error)
    ensures ValidateIdAndPartitionKey(id, partitionKey).Pass? && !connected ==> r == Failure(NotConnected("read_item"))
    ensures r == Success(None) <==> ValidateIdAndPartitionKey(id, partitionKey).Pass? && connected &&
                                    ItemKey(id.value, partitionKey.value) !in items
    ensures r.Success? && r.value.Some? ==>
      ItemKey(id.value, partitionKey.value) in items &&
      DumpsDict(items[ItemKey(id.value, partitionKey.value)]) == Success(r.value.value)
    ensures (ValidateIdAndPartitionKey(id, partitionKey).Pass? && connected &&
             ItemKey(id.value, partitionKey.value) in items) ==>
      r == (if DumpsDict(items[ItemKey(id.value, partitionKey.value)]).Success?
            then Success(Some(DumpsDict(items[ItemKey(id.value, partitionKey.value)]).value))
            else Failure(DumpsDict(items[ItemKey(id.value, partitionKey.value)]).error))
  {
    if ValidateIdAndPartitionKey(id, partitionKey).Fail? then Failure(ValidateIdAndPartitionKey(id, partitionKey).error)
    else if !connected then Failure(NotConnected("read_item"))
    else
      var key := ItemKey(id.value, partitionKey.value);
      if key !in items then Success(None)
      else
        var j :- DumpsDict(items[key]);
        Success(Some(j))
  }

  /** The request `query` hands to the store for `q`. */
  function RequestOf(q: Query): QueryRequest {
    QueryRequest(q.queryStr, WhereParamList(q), q.enableCrossPartitionQuery)
  }

  /** What `query(q)` returns: `None` raises `TypeError`; rendering the
      parameters for the log raises when a value is not JSON-serialisable;
      an empty result is reported as `None`; otherwise the list as JSON. */
  function QueryResult(connected: bool, items: map<ItemKey, Dict>, q: Option<Query>, engine: Engine)
    : (r: Result<Option<string>>)
    ensures q.None? ==> r == Failure(QueryMissing)
    ensures q.Some? && Describe(q.value).Failure? ==> r == Failure(Describe(q.value).error)
    ensures q.Some? && Describe(q.value).Success? && !connected ==> r == Failure(NotConnected("query_items"))
    ensures r == Success(None) <==> q.Some? && Describe(q.value).Success? && connected && engine(items, RequestOf(q.value)) == []
    ensures r.Success? && r.value.Some? ==> DumpsList(engine(items, RequestOf(q.value))) == Success(r.value.value)
    ensures (q.Some? && Describe(q.value).Success? && connected && engine(items, RequestOf(q.value)) != []) ==>
      r == (if DumpsList(engine(items, RequestOf(q.value))).Success?
            then Success(Some(DumpsList(engine(items, RequestOf(q.value))).value))
            else Failure(DumpsList(engine(items, RequestOf(q.value))).error))
  {
    if q.None? then Failure(QueryMissing)
    else
      var _ :- Describe(q.value);
      if !connected then Failure(NotConnected("query_items"))
      else
        var result := engine(items, RequestOf(q.value));
        if |result| > 0 then
          var j :- DumpsList(result);
          Success(Some(j))
        else Success(None)
  }

  /** Rows the store returns for a query whose parameters render are
      answered as their JSON text, for every store and every engine. */
  lemma QueryReturnsRows(items: map<ItemKey, Dict>, q: Query, engine: Engine)
    requires Describe(q).Success?
    requires engine(items, RequestOf(q)) != []
    requires forall k :: 0 <= k < |engine(items, RequestOf(q))| ==> Serialisable(engine(items, RequestOf(q))[k])
    ensures QueryResult(true, items, Some(q), engine) == Success(Some(DumpsList(engine(items, RequestOf(q))).value))
  {
  }

  /** An empty parameter dictionary is sent exactly like no dictionary. */
  lemma EmptyParamsLikeNone(connected: bool, items: map<ItemKey, Dict>, s: string, flag: bool, engine: Engine)
    ensures QueryResult(connected, items, Some(Query(s, Some([]), flag)), engine) ==
            QueryResult(connected, items, Some(Query(s, None, flag)), engine)
  {
    assert RequestOf(Query(s, Some([]), flag)) == RequestOf(Query(s, None, flag));
  }

  /** The key the store files a document under: its `"id"` and the value the
      container's partition-key definition picks out. This stands in for the
      vendor SDK's own key extraction, which is not part of this model. */
  function KeyOf(item: Dict, partitionKeyOf: Dict -> Option<string>): (r: Option<ItemKey>)
    ensures r.Some? <==> (Get(item, "id").Some? && Get(item, "id").value.Str? && partitionKeyOf(item).Some?)
    ensures r.Some? ==> Get(item, "id") == Some(Str(r.value.id)) && partitionKeyOf(item) == Some(r.value.partitionKey)
  {
    match Get(item, "id")
    case Some(Str(id)) =>
      if partitionKeyOf(item).Some? then Some(ItemKey(id, partitionKeyOf(item).value)) else None
    case _ => None
  }

  /** What `upsert(item)` returns: `None` raises `TypeError`; logging the
      item as JSON raises when it is not serialisable; before `connect` the
      container is `None`; a document without a usable key is refused by the
      store; otherwise the document is written and returned as JSON. */
  function UpsertResult(connected: bool, item: Option<Dict>, partitionKeyOf: Dict -> Option<string>)
    : (r: Result<string>)
    ensures item.None? ==> r == Failure(ItemMissing)
    ensures item.Some? && DumpsDict(item.value).Failure? ==> r == Failure(DumpsDict(item.value).error)
    ensures item.Some? && DumpsDict(item.value).Success? && !connected ==> r == Failure(NotConnected("upsert_item"))
    ensures (item.Some? && DumpsDict(item.value).Success? && connected &&
             KeyOf(item.value, partitionKeyOf).None?) ==> r == Failure(BadRequest)
    ensures r.Success? <==> item.Some? && DumpsDict(item.value).Success? && connected &&
                            KeyOf(item.value, partitionKeyOf).Some?
    ensures r.Success? ==> DumpsDict(item.value) == r
  {
    if item.None? then Failure(ItemMissing)
    else
      var logged :- DumpsDict(item.value);
      if !connected then Failure(NotConnected("upsert_item"))
      else if KeyOf(item.value, partitionKeyOf).None? then Failure(BadRequest)
      else Success(logged)
  }

  /** What `delete(id, partitionKey)` returns: argument errors first; before
      `connect` the container is `None`; a missing document is the store's
      not-found error, re-raised; otherwise the document is removed. */
  function DeleteResult(connected: bool, items: map<ItemKey, Dict>, id: Option<string>, partitionKey: Option<string>)
    : (r: Check)
    ensures ValidateIdAndPartitionKey(id, partitionKey).Fail? ==> r == ValidateIdAndPartitionKey(id, partitionKey)
    ensures ValidateIdAndPartitionKey(id, partitionKey).Pass? && !connected ==> r == Fail(NotConnected("delete_item"))
    ensures r == Fail(NotFound) <==>
      ValidateIdAndPartitionKey(id, partitionKey).Pass? && connected && ItemKey(id.value, partitionKey.value) !in items
    ensures r.Pass? <==>
      ValidateIdAndPartitionKey(id, partitionKey).Pass? && connected && ItemKey(id.value, partitionKey.value) in items
  {
    var valid := ValidateIdAndPartitionKey(id, partitionKey);
    if valid.Fail? then valid
    else if !connected then Fail(NotConnected("delete_item"))
    else if ItemKey(id.value, partitionKey.value) !in items then Fail(NotFound)
    else Pass
  }

  class DbService {
    var dbOptions: Option<DbOptions>
    /** The client, database and container handles, named after what they
        were opened with; `None` until `connect` succeeds. */
    var client: Option<string>
    var db: Option<string>
    var container: Option<string>
    /** The documents of the container. */
    var items: map<ItemKey, Dict>

    predicate Connected()
      reads this
    {
      container.Some?
    }

    /** `DbService(dbOptions)`: stores the options, opens nothing. */
    constructor (dbOptions: Option<DbOptions>, items: map<ItemKey, Dict>)
      ensures this.dbOptions == dbOptions && this.items == items
      ensures client.None? && db.None? && container.None?
    {
      this.dbOptions := dbOptions;
      client := None;
      db := None;
      container := None;
      this.items := items;
    }

    /** `connect`: validates the options before anything is opened, so a
        failure leaves every handle as it was; then opens the client, the
        database and the container in turn. */
    method Connect() returns (r: Check)
      modifies this`client, this`db, this`container
      ensures r == ValidateDbOptions(dbOptions)
      ensures r.Fail? ==> client == old(client) && db == old(db) && container == old(container)
      ensures r.Pass? ==> client == dbOptions.value.endpoint && db == dbOptions.value.databaseId &&
                          container == dbOptions.value.containerId && Connected()
    {
      r := ValidateDbOptions(dbOptions);
      if r.Fail? {
        return;
      }
      client := dbOptions.value.endpoint;
      db := dbOptions.value.databaseId;
      container := dbOptions.value.containerId;
    }

    /** `get(id, partitionKey)`. */
    method Get(id: Option<string>, partitionKey: Option<string>) returns (r: Result<Option<string>>)
      ensures r == GetResult(Connected(), items, id, partitionKey)
    {
      var valid := ValidateIdAndPartitionKey(id, partitionKey);
      if valid.Fail? {
        return Failure(valid.error);
      }
      if container.None? {
        return Failure(NotConnected("read_item"));
      }
      var key := ItemKey(id.value, partitionKey.value);
      if key !in items {
        // The store raises not-found; `get` logs it and returns `None`.
        return Success(None);
      }
      var j := DumpsDict(items[key]);
      if j.Failure? {
        return Failure(j.error);
      }
      return Success(Some(j.value));
    }

    /** `query(q)`: the parameters go to the store only when there are some. */
    method Query(q: Option<Query>, engine: Engine) returns (r: Result<Option<string>>)
      ensures r == QueryResult(Connected(), items, q, engine)
    {
      if q.None? {
        return Failure(QueryMissing);
      }
      var params := BuildWhereParams(q.value);
      var logged := Describe(q.value);
      if logged.Failure? {
        return Failure(logged.error);
      }
      if container.None? {
        return Failure(NotConnected("query_items"));
      }
      var result: seq<Dict>;
      if params.None? {
        result := engine(items, QueryRequest(q.value.queryStr, None, q.value.enableCrossPartitionQuery));
      } else {
        result := engine(items, QueryRequest(q.value.queryStr, params, q.value.enableCrossPartitionQuery));
      }
      if |result| > 0 {
        var j := DumpsList(result);
        if j.Failure? {
          return Failure(j.error);
        }
        return Success(Some(j.value));
      }
      return Success(None);
    }

    /** `upsert(item)`: `None` raises `TypeError`; the document is written
        under its key, replacing any document there, and returned as JSON. */
    method Upsert(item: Option<Dict>, partitionKeyOf: Dict -> Option<string>) returns (r: Result<string>)
      modifies this`items
      ensures r == UpsertResult(Connected(), item, partitionKeyOf)
      ensures item.None? ==> r == Failure(ItemMissing)
      ensures (item.Some? && DumpsDict(item.value).Success? && Connected() &&
               KeyOf(item.value, partitionKeyOf).Some?) ==> r.Success?
      ensures r.Success? ==> item.Some? && KeyOf(item.value, partitionKeyOf).Some? && Connected() &&
                             items == old(items)[KeyOf(item.value, partitionKeyOf).value := item.value] &&
                             DumpsDict(item.value) == r
      ensures r.Failure? ==> items == old(items)
    {
      if item.None? {
        return Failure(ItemMissing);
      }
      var logged := DumpsDict(item.value);
      if logged.Failure? {
        return Failure(logged.error);
      }
      if container.None? {
        return Failure(NotConnected("upsert_item"));
      }
      var key := KeyOf(item.value, partitionKeyOf);
      if key.None? {
        return Failure(BadRequest);
      }
      items := items[key.value := item.value];
      return Success(logged.value);
    }

    /** `delete(id, partitionKey)`: unlike `get`, a missing document is an
        error, re-raised to the caller. */
    method Delete(id: Option<string>, partitionKey: Option<string>) returns (r: Check)
      modifies this`items
      ensures r == DeleteResult(Connected(), old(items), id, partitionKey)
      ensures ValidateIdAndPartitionKey(id, partitionKey).Fail? ==> r == ValidateIdAndPartitionKey(id, partitionKey)
      ensures (ValidateIdAndPartitionKey(id, partitionKey).Pass? && Connected() &&
               ItemKey(id.value, partitionKey.value) in old(items)) ==> r.Pass?
      ensures ValidateIdAndPartitionKey(id, partitionKey).Pass? && !Connected() ==> r == Fail(NotConnected("delete_item"))
      ensures r == Fail(NotFound) <==>
        ValidateIdAndPartitionKey(id, partitionKey).Pass? && Connected() && ItemKey(id.value, partitionKey.value) !in old(items)
      ensures r.Pass? ==> ItemKey(id.value, partitionKey.value) in old(items) &&
                          items == old(items) - {ItemKey(id.value, partitionKey.value)}
      ensures r.Fail? ==> items == old(items)
      ensures r.Pass? ==> GetResult(Connected(), items, id, partitionKey) == Success(None)
    {
      r := ValidateIdAndPartitionKey(id, partitionKey);
      if r.Fail? {
        return;
      }
      if container.None? {
        return Fail(NotConnected("delete_item"));
      }
      var key := ItemKey(id.value, partitionKey.value);
      if key !in items {
        return Fail(NotFound);
      }
      items := items - {key};
    }
  }

  /** A document written by `upsert` is what a later `get` of its key
      returns, unless its key is one `get` refuses. */
  lemma GetAfterUpsert(items: map<ItemKey, Dict>, item: Dict, key: ItemKey)
    requires DumpsDict(item).Success?
    ensures GetResult(true, items[key := item], Some(key.id), Some(key.partitionKey)) ==
            (if IsBlank(Some(key.id)) then Failure(IdMissing)
             else if IsBlank(Some(key.partitionKey)) then Failure(PartitionKeyMissing)
             else Success(Some(DumpsDict(item).value)))
  {
  }

  /** After `delete` of a key, `get` of that key reports `None`; documents
      under other keys are still found. */
  lemma GetAfterDelete(items: map<ItemKey, Dict>, key: ItemKey, other: ItemKey)
    requires !IsBlank(Some(key.id)) && !IsBlank(Some(key.partitionKey))
    requires other != key
    ensures GetResult(true, items - {key}, Some(key.id), Some(key.partitionKey)) == Success(None)
    ensures GetResult(true, items - {key}, Some(other.id), Some(other.partitionKey)) ==
            GetResult(true, items, Some(other.id), Some(other.partitionKey))
  {
  }
}
