/** The values the todo service works with: the JSON values a request body
    can carry, the stored todo item, and the two payloads the store accepts
    (a creation record and a partial update). */
module TodoTypes {

  datatype Option<+T> = None | Some(value: T) {
    /** The wrapped value, or `default` when there is none. */
    function GetOr(default: T): T {
      match this
      case Some(v) => v
      case None => default
    }
  }

  /** A value as Express's JSON body parser hands it to a handler.
      `JUndefined` stands for a field the request body does not have; the
      other cases are the JSON values themselves (numbers as reals). */
  datatype JsonValue =
    | JUndefined
    | JNull
    | JBool(b: bool)
    | JNumber(n: real)
    | JString(s: string)
    | JArray(elements: seq<JsonValue>)
    | JObject(members: seq<(string, JsonValue)>)

  /** A stored todo. The controller never type-checks `description`, so it
      holds whatever value the request carried, `JUndefined` when absent. */
  datatype Item = Item(id: string, title: string, description: JsonValue, isImportant: bool)

  /** The argument of `create`: an item without its id. */
  datatype NewTodo = NewTodo(title: string, description: JsonValue, isImportant: bool)

  /** The argument of `update`: one slot per mutable field; `None` means the
      field is not present in the update object. */
  datatype Updates = Updates(title: Option<string>, description: Option<JsonValue>, isImportant: Option<bool>)

  /** The empty update object `{}`. */
  const NoUpdates := Updates(None, None, None)
}
