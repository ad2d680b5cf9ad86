/** The request handlers: each one checks the request-body fields the way
    the JavaScript code does (`typeof`, truthiness), calls the store, and
    maps the outcome to a status code and a JSON payload. */
module TodoController {
  import opened TodoTypes
  import opened Decimal
  import opened TodoModel

  /** The three fields a handler destructures from `req.body`. */
  datatype TodoBody = TodoBody(title: JsonValue, description: JsonValue, isImportant: JsonValue)

  datatype Payload =
    | ItemJson(item: Item)
    | ListJson(items: seq<Item>)
    | ErrorJson(error: string)
    | NoContent

  datatype Response = Response(status: nat, payload: Payload)

  datatype Result<T> = Ok(value: T) | Err(message: string)

  const TitleRequired := "Title is required and must be a string"
  const TitleNotString := "Title must be a string"
  const ImportantNotBool := "isImportant must be a boolean"
  const NotFound := "Todo not found"

  /** JavaScript's `typeof` on a parsed JSON value. */
  function TypeOf(v: JsonValue): string {
    match v
    case JUndefined => "undefined"
    case JBool(_) => "boolean"
    case JNumber(_) => "number"
    case JString(_) => "string"
    case _ => "object"
  }

  /** JavaScript truthiness; a parsed JSON number is never NaN. */
  predicate Truthy(v: JsonValue) {
    match v
    case JUndefined => false
    case JNull => false
    case JBool(b) => b
    case JNumber(n) => n != 0.0
    case JString(s) => s != ""
    case _ => true
  }

  predicate IsNonEmptyString(v: JsonValue) {
    v.JString? && v.s != ""
  }

  /** `title` is given but is not a string. */
  predicate TitleBad(body: TodoBody) {
    body.title != JUndefined && !body.title.JString?
  }

  /** `isImportant` is given but is not a boolean. */
  predicate ImportantBad(body: TodoBody) {
    body.isImportant != JUndefined && !body.isImportant.JBool?
  }

  /** The update object implied by the defined fields of `body`. */
  function Requested(body: TodoBody): Updates
    requires !TitleBad(body) && !ImportantBad(body)
  {
    Updates(if body.title.JString? then Some(body.title.s) else None,
            if body.description != JUndefined then Some(body.description) else None,
            if body.isImportant.JBool? then Some(body.isImportant.b) else None)
  }

  /** GET /api/todos */
  method GetAllTodos(store: TodoStore) returns (resp: Response)
    ensures resp == Response(200, ListJson(store.todos))
  {
    var todos := store.GetAll();
    resp := Response(200, ListJson(todos));
  }

  /** GET /api/todos/:id */
  method GetTodoById(store: TodoStore, id: string) returns (resp: Response)
    ensures resp.status == 404 <==> forall i :: 0 <= i < |store.todos| ==> store.todos[i].id != id
    ensures resp.status == 404 ==> resp.payload == ErrorJson(NotFound)
    ensures resp.status != 404 ==> resp.status == 200 && resp.payload == ItemJson(Lookup(store.todos, id).value)
  {
    var todo := store.GetById(id);
    if todo.None? {
      return Response(404, ErrorJson(NotFound));
    }
    resp := Response(200, ItemJson(todo.value));
  }

  /** POST /api/todos */
  method CreateTodo(store: TodoStore, body: TodoBody) returns (resp: Response)
    requires store.Valid()
    modifies store
    ensures store.Valid()
    ensures !IsNonEmptyString(body.title) ==> resp == Response(400, ErrorJson(TitleRequired))
    ensures IsNonEmptyString(body.title) && !body.isImportant.JBool? ==> resp == Response(400, ErrorJson(ImportantNotBool))
    ensures resp.status == 400 <==> !(IsNonEmptyString(body.title) && body.isImportant.JBool?)
    ensures resp.status == 400 ==> unchanged(store)
    ensures resp.status != 400 ==>
      IsNonEmptyString(body.title) && body.isImportant.JBool? &&
      var item := Item(ToDecimal(old(store.nextId)), body.title.s, body.description, body.isImportant.b);
      resp == Response(201, ItemJson(item)) &&
      store.todos == old(store.todos) + [item] && store.nextId == old(store.nextId) + 1
  {
    var title, description, isImportant := body.title, body.description, body.isImportant;
    if !Truthy(title) || TypeOf(title) != "string" {
      return Response(400, ErrorJson(TitleRequired));
    }
    if TypeOf(isImportant) != "boolean" {
      return Response(400, ErrorJson(ImportantNotBool));
    }
    var newTodo := store.Create(NewTodo(title.s, description, isImportant.b));
    resp := Response(201, ItemJson(newTodo));
  }

  /** The `updates` object of PUT /api/todos/:id, built field by field;
      a field is set exactly when the request defines it. */
  method BuildUpdates(body: TodoBody) returns (r: Result<Updates>)
    ensures r.Err? <==> TitleBad(body) || ImportantBad(body)
    ensures TitleBad(body) ==> r == Err(TitleNotString)
    ensures !TitleBad(body) && ImportantBad(body) ==> r == Err(ImportantNotBool)
    ensures r.Ok? ==> r.value == Requested(body)
    ensures r.Ok? ==> (r.value.title.Some? <==> body.title != JUndefined)
    ensures r.Ok? ==> (r.value.description.Some? <==> body.description != JUndefined)
    ensures r.Ok? ==> (r.value.isImportant.Some? <==> body.isImportant != JUndefined)
  {
    var title, description, isImportant := body.title, body.description, body.isImportant;
    var updates := NoUpdates;
    if title != JUndefined {
      if TypeOf(title) != "string" {
        return Err(TitleNotString);
      }
      updates := updates.(title := Some(title.s));
    }
    if description != JUndefined {
      updates := updates.(description := Some(description));
    }
    if isImportant != JUndefined {
      if TypeOf(isImportant) != "boolean" {
        return Err(ImportantNotBool);
      }
      updates := updates.(isImportant := Some(isImportant.b));
    }
    r := Ok(updates);
  }

  /** PUT /api/todos/:id */
  method UpdateTodo(store: TodoStore, id: string, body: TodoBody) returns (resp: Response)
    requires store.Valid()
    modifies store
    ensures store.Valid()
    ensures store.nextId == old(store.nextId)
    ensures TitleBad(body) ==> resp == Response(400, ErrorJson(TitleNotString)) && unchanged(store)
    ensures !TitleBad(body) && ImportantBad(body) ==> resp == Response(400, ErrorJson(ImportantNotBool)) && unchanged(store)
    ensures !TitleBad(body) && !ImportantBad(body) ==>
      var k := FirstIndex(old(store.todos), id);
      if k == -1 then resp == Response(404, ErrorJson(NotFound)) && unchanged(store)
      else
        var merged := Merge(old(store.todos)[k], Requested(body));
        resp == Response(200, ItemJson(merged)) && store.todos == old(store.todos)[k := merged]
  {
    var updates := BuildUpdates(body);
    if updates.Err? {
      return Response(400, ErrorJson(updates.message));
    }
    var updatedTodo := store.Update(id, updates.value);
    if updatedTodo.None? {
      return Response(404, ErrorJson(NotFound));
    }
    resp := Response(200, ItemJson(updatedTodo.value));
  }

  /** DELETE /api/todos/:id */
  method DeleteTodo(store: TodoStore, id: string) returns (resp: Response)
    requires store.Valid()
    modifies store
    ensures store.Valid()
    ensures var k := FirstIndex(old(store.todos), id);
      if k == -1 then resp == Response(404, ErrorJson(NotFound)) && unchanged(store)
      else (resp == Response(204, NoContent) && store.nextId == old(store.nextId) &&
            store.todos == old(store.todos)[..k] + old(store.todos)[k + 1..])
    ensures FirstIndex(store.todos, id) == -1
  {
    var deleted := store.Delete(id);
    if !deleted {
      return Response(404, ErrorJson(NotFound));
    }
    resp := Response(204, NoContent);
  }

  /** A session against a fresh store: create, update one field, delete,
      then look up, delete again and update an id that never existed. */
  method BuyMilkSession() {
    var store := new TodoStore();
    var bad := CreateTodo(store, TodoBody(JString(""), JUndefined, JBool(true)));
    assert bad == Response(400, ErrorJson(TitleRequired));
    var created := CreateTodo(store, TodoBody(JString("Buy milk"), JUndefined, JBool(false)));
    assert ToDecimal(1) == "1";
    assert created == Response(201, ItemJson(Item("1", "Buy milk", JUndefined, false)));
    var updated := UpdateTodo(store, "1", TodoBody(JUndefined, JUndefined, JBool(true)));
    assert updated == Response(200, ItemJson(Item("1", "Buy milk", JUndefined, true)));
    var deleted := DeleteTodo(store, "1");
    assert deleted == Response(204, NoContent);
    var gone := GetTodoById(store, "1");
    assert gone == Response(404, ErrorJson(NotFound));
    var again := DeleteTodo(store, "1");
    assert again.status == 404;
    var missing := UpdateTodo(store, "999", TodoBody(JString("x"), JUndefined, JUndefined));
    assert missing == Response(404, ErrorJson(NotFound));
    assert store.todos == [] && store.nextId == 2;
  }
}
