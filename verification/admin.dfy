/** The admin handler: CRUD on the form configuration table, dispatched on
    the HTTP method. The table is an abstract store from an item's `id` value
    to the item. Each request makes at most one store call, whose success is
    an input; a failed call or a throwing `JSON.parse` rejects the handler's
    promise and leaves the store as it was. */
module Admin {
  import opened Wrappers
  import opened Values
  import opened Http

  type Store = map<Value, Record>

  datatype Request = Request(httpMethod: string, pathId: Option<string>, body: Option<string>)

  /** `Rejected`: the handler throws instead of returning a response. */
  datatype Reply = Replied(response: Response) | Rejected

  datatype Outcome = Outcome(store: Store, reply: Reply)

  /** The admin handler sets no headers. */
  function Respond(status: int, body: Body): Reply {
    Replied(Response(status, map[], body))
  }

  const IdRequired := Respond(400, Message("id is required"))
  const NotFound := Respond(404, Message("Item not found"))

  /** The key and value stores agree at `k`. */
  predicate SameAt(s: Store, t: Store, k: Value) {
    (k in s <==> k in t) && (k in s ==> s[k] == t[k])
  }

  /** Writing one key leaves every other key as it was. */
  lemma StoreFrame(store: Store, key: Value, item: Record, updated: Store)
    requires updated == store[key := item]
    ensures forall k :: k != key ==> SameAt(store, updated, k)
  {
  }

  /** GET with a path id: the item, or 404. */
  function GetItem(store: Store, id: string, callSucceeds: bool): (o: Outcome)
    ensures o.store == store
    ensures !callSucceeds ==> o.reply == Rejected
    ensures callSucceeds && Str(id) in store ==> o.reply == Respond(200, Json(store[Str(id)]))
    ensures callSucceeds && Str(id) !in store ==> o.reply == Respond(404, Message("Item not found"))
  {
    if !callSucceeds then Outcome(store, Rejected)
    else if Str(id) in store then Outcome(store, Respond(200, Json(store[Str(id)])))
    else Outcome(store, NotFound)
  }

  /** GET without a path id: every item (a scan). */
  function ListItems(store: Store, callSucceeds: bool): (o: Outcome)
    ensures o.store == store
    ensures callSucceeds ==> o.reply == Respond(200, Items(store))
    ensures !callSucceeds ==> o.reply == Rejected
  {
    if callSucceeds then Outcome(store, Respond(200, Items(store))) else Outcome(store, Rejected)
  }

  /** POST: store the parsed body under its `id`, replacing any item there. */
  function CreateItem(store: Store, item: Record, callSucceeds: bool): (o: Outcome)
    ensures !Truthy(Lookup(item, "id")) ==> o == Outcome(store, Respond(400, Message("id is required")))
    ensures Truthy(Lookup(item, "id")) && callSucceeds ==>
      && o.reply == Respond(201, Json(item))
      && Lookup(item, "id") in o.store && o.store[Lookup(item, "id")] == item
      && forall k :: k != Lookup(item, "id") ==> SameAt(store, o.store, k)
    ensures Truthy(Lookup(item, "id")) && !callSucceeds ==> o == Outcome(store, Rejected)
  {
    var id := Lookup(item, "id");
    if !Truthy(id) then Outcome(store, IdRequired)
    else if !callSucceeds then Outcome(store, Rejected)
    else Outcome(store[id := item], Respond(201, Json(item)))
  }

  /** The item an update starts from: the stored one, or, since an update of
      a missing key creates it, an item holding only the key. */
  function UpdateBase(store: Store, id: string): Record {
    if Str(id) in store then store[Str(id)] else [Field("id", Str(id))]
  }

  /** `set #name = :name, #email = :email` applied to one item. */
  function SetNameAndEmail(item: Record, name: Value, email: Value): Record {
    Assign(Assign(item, "name", name), "email", email)
  }

  /** PUT with a path id: set `name` and `email` of that item from the
      parsed body and echo the body. A body without either field makes
      the update call invalid. */
  function UpdateItem(store: Store, id: string, updated: Record, callSucceeds: bool): (o: Outcome)
    ensures o.reply.Replied? <==>
      callSucceeds && Lookup(updated, "name") != Undefined && Lookup(updated, "email") != Undefined
    ensures o.reply.Rejected? ==> o == Outcome(store, Rejected)
    ensures o.reply.Replied? ==>
      && o.reply == Respond(200, Json(updated))
      && Str(id) in o.store
      && o.store[Str(id)] == SetNameAndEmail(UpdateBase(store, id), Lookup(updated, "name"), Lookup(updated, "email"))
    ensures o.reply.Replied? ==> forall k :: k != Str(id) ==> SameAt(store, o.store, k)
  {
    var name, email := Lookup(updated, "name"), Lookup(updated, "email");
    if !callSucceeds || name == Undefined || email == Undefined then Outcome(store, Rejected)
    else
      var item := SetNameAndEmail(UpdateBase(store, id), name, email);
      var store' := store[Str(id) := item];
      StoreFrame(store, Str(id), item, store');
      Outcome(store', Respond(200, Json(updated)))
  }

  /** DELETE with a path id: remove the key, present or not; 204. */
  function DeleteItem(store: Store, id: string, callSucceeds: bool): (o: Outcome)
    ensures callSucceeds ==> o.reply == Respond(204, Blank) && Str(id) !in o.store
    ensures callSucceeds ==> forall k :: k != Str(id) ==> SameAt(store, o.store, k)
    ensures !callSucceeds ==> o == Outcome(store, Rejected)
  {
    if callSucceeds then Outcome(store - {Str(id)}, Respond(204, Blank)) else Outcome(store, Rejected)
  }

  /** The handler: the table-name check, then the method switch. */
  function Handle(tableName: Option<string>, parse: JsonParser, store: Store, req: Request, callSucceeds: bool): (o: Outcome)
    ensures o.reply.Replied? ==> o.reply.response.status in {200, 201, 204, 400, 404, 405, 500}
    ensures o.reply.Replied? ==> o.reply.response.headers == map[]
    ensures o.reply.Rejected? ==> o.store == store
    ensures o.reply.Replied? && o.reply.response.status >= 400 ==> o.store == store
  {
    if !IsSet(tableName) then
      Outcome(store, Respond(500, Message("FORM_TABLE_NAME environment variable not set")))
    else if req.httpMethod == "GET" then
      if IsSet(req.pathId) then GetItem(store, req.pathId.value, callSucceeds)
      else ListItems(store, callSucceeds)
    else if req.httpMethod == "POST" then
      match ParseBody(req.body, parse)
      case None => Outcome(store, Rejected)
      case Some(item) => CreateItem(store, item, callSucceeds)
    else if req.httpMethod == "PUT" then
      if !IsSet(req.pathId) then Outcome(store, IdRequired)
      else
        match ParseBody(req.body, parse)
        case None => Outcome(store, Rejected)
        case Some(updated) => UpdateItem(store, req.pathId.value, updated, callSucceeds)
    else if req.httpMethod == "DELETE" then
      if !IsSet(req.pathId) then Outcome(store, IdRequired)
      else DeleteItem(store, req.pathId.value, callSucceeds)
    else Outcome(store, Respond(405, Message("Method not allowed")))
  }

  /** The one key a request may change: the parsed body's `id` for POST,
      the path id for PUT and DELETE. */
  function TargetKey(parse: JsonParser, req: Request): Option<Value> {
    if req.httpMethod == "POST" && ParseBody(req.body, parse).Some? then
      Some(Lookup(ParseBody(req.body, parse).value, "id"))
    else if (req.httpMethod == "PUT" || req.httpMethod == "DELETE") && IsSet(req.pathId) then
      Some(Str(req.pathId.value))
    else None
  }

  /** Nothing else changes: every key other than the request's target keeps
      its item, or stays absent. */
  lemma OnlyTargetKeyChanges(tableName: Option<string>, parse: JsonParser, store: Store, req: Request, callSucceeds: bool, k: Value)
    requires TargetKey(parse, req) != Some(k)
    ensures SameAt(store, Handle(tableName, parse, store, req, callSucceeds).store, k)
  {
  }

  /** GET, unknown methods and a missing table name never change the store. */
  lemma ReadsKeepStore(tableName: Option<string>, parse: JsonParser, store: Store, req: Request, callSucceeds: bool)
    requires !IsSet(tableName) || req.httpMethod !in {"POST", "PUT", "DELETE"}
    ensures Handle(tableName, parse, store, req, callSucceeds).store == store
    ensures !IsSet(tableName) ==>
      Handle(tableName, parse, store, req, callSucceeds).reply == Respond(500, Message("FORM_TABLE_NAME environment variable not set"))
    ensures IsSet(tableName) && req.httpMethod !in {"GET", "POST", "PUT", "DELETE"} ==>
      Handle(tableName, parse, store, req, callSucceeds).reply == Respond(405, Message("Method not allowed"))
  {
  }

  /** PUT and DELETE without a truthy path id answer 400 and change nothing. */
  lemma PathIdRequired(tableName: Option<string>, parse: JsonParser, store: Store, req: Request, callSucceeds: bool)
    requires IsSet(tableName) && !IsSet(req.pathId)
    requires req.httpMethod == "PUT" || req.httpMethod == "DELETE"
    ensures Handle(tableName, parse, store, req, callSucceeds) == Outcome(store, Respond(400, Message("id is required")))
  {
  }

  /** An update sets `name` and `email` and leaves every other attribute of
      the item as it was. */
  lemma UpdateSetsOnlyNameAndEmail(item: Record, name: Value, email: Value, k: string)
    ensures Lookup(SetNameAndEmail(item, name, email), "name") == name
    ensures Lookup(SetNameAndEmail(item, name, email), "email") == email
    ensures k != "name" && k != "email" ==> Lookup(SetNameAndEmail(item, name, email), k) == Lookup(item, k)
  {
    AssignFrame(Assign(item, "name", name), "email", email, "name");
    if k != "name" && k != "email" {
      AssignFrame(item, "name", name, k);
      AssignFrame(Assign(item, "name", name), "email", email, k);
    }
  }

  /** Round trip: after a POST, a GET of the item's id returns the item. */
  lemma CreateThenGet(tableName: Option<string>, parse: JsonParser, store: Store, post: Request, id: string, item: Record, get: Request)
    requires IsSet(tableName)
    requires post.httpMethod == "POST" && ParseBody(post.body, parse) == Some(item)
    requires Lookup(item, "id") == Str(id) && id != ""
    requires get.httpMethod == "GET" && get.pathId == Some(id)
    ensures var created := Handle(tableName, parse, store, post, true);
      && created.reply == Respond(201, Json(item))
      && Handle(tableName, parse, created.store, get, true).reply == Respond(200, Json(item))
  {
  }

  /** Round trip: after a POST, a listing holds the item at its id, and
      every other item as it was before. */
  lemma CreateThenList(tableName: Option<string>, parse: JsonParser, store: Store, post: Request, id: string, item: Record, list: Request)
    requires IsSet(tableName)
    requires post.httpMethod == "POST" && ParseBody(post.body, parse) == Some(item)
    requires Lookup(item, "id") == Str(id) && id != ""
    requires list.httpMethod == "GET" && !IsSet(list.pathId)
    ensures var listed := Handle(tableName, parse, Handle(tableName, parse, store, post, true).store, list, true).reply;
      && listed.Replied? && listed.response.status == 200 && listed.response.body.Items?
      && Str(id) in listed.response.body.items && listed.response.body.items[Str(id)] == item
      && forall k :: k != Str(id) ==> SameAt(store, listed.response.body.items, k)
  {
  }

  /** A listing and a GET by id agree: the id is listed exactly when the GET
      finds it, and then with the same item. */
  lemma ListAgreesWithGet(tableName: Option<string>, parse: JsonParser, store: Store, list: Request, get: Request)
    requires IsSet(tableName)
    requires list.httpMethod == "GET" && !IsSet(list.pathId)
    requires get.httpMethod == "GET" && IsSet(get.pathId)
    ensures var listed := Handle(tableName, parse, store, list, true).reply;
      var got := Handle(tableName, parse, store, get, true).reply;
      && listed.Replied? && listed.response.status == 200 && listed.response.body.Items?
      && (Str(get.pathId.value) in listed.response.body.items ==>
            got == Respond(200, Json(listed.response.body.items[Str(get.pathId.value)])))
      && (Str(get.pathId.value) !in listed.response.body.items ==> got == NotFound)
  {
  }

  /** Round trip: after a PUT, a GET of the path id returns an item whose
      name and email are the body's and whose other attributes are those of
      the item before. */
  lemma UpdateThenGet(tableName: Option<string>, parse: JsonParser, store: Store, put: Request, updated: Record, get: Request, k: string)
    requires IsSet(tableName)
    requires put.httpMethod == "PUT" && IsSet(put.pathId) && ParseBody(put.body, parse) == Some(updated)
    requires Lookup(updated, "name") != Undefined && Lookup(updated, "email") != Undefined
    requires get.httpMethod == "GET" && get.pathId == put.pathId
    requires k != "name" && k != "email"
    ensures var reply := Handle(tableName, parse, Handle(tableName, parse, store, put, true).store, get, true).reply;
      && reply.Replied? && reply.response.status == 200 && reply.response.body.Json?
      && Lookup(reply.response.body.record, "name") == Lookup(updated, "name")
      && Lookup(reply.response.body.record, "email") == Lookup(updated, "email")
      && Lookup(reply.response.body.record, k) == Lookup(UpdateBase(store, put.pathId.value), k)
  {
    UpdateSetsOnlyNameAndEmail(UpdateBase(store, put.pathId.value), Lookup(updated, "name"), Lookup(updated, "email"), k);
  }

  /** Round trip: after a DELETE, a GET of the same id answers 404. */
  lemma DeleteThenGet(tableName: Option<string>, parse: JsonParser, store: Store, del: Request, get: Request)
    requires IsSet(tableName)
    requires del.httpMethod == "DELETE" && IsSet(del.pathId)
    requires get.httpMethod == "GET" && get.pathId == del.pathId
    ensures var deleted := Handle(tableName, parse, store, del, true);
      && deleted.reply == Respond(204, Blank)
      && Handle(tableName, parse, deleted.store, get, true).reply == Respond(404, Message("Item not found"))
  {
  }

  /** Deleting twice is deleting once, and deleting an absent key is a
      204 that changes nothing. */
  lemma DeleteIsIdempotent(tableName: Option<string>, parse: JsonParser, store: Store, del: Request)
    requires IsSet(tableName)
    requires del.httpMethod == "DELETE" && IsSet(del.pathId)
    ensures var once := Handle(tableName, parse, store, del, true);
      && Handle(tableName, parse, once.store, del, true) == once
      && (Str(del.pathId.value) !in store ==> once.store == store)
  {
  }
}
