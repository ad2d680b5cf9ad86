# Todo API — a Dafny model of the in-memory store and its request handlers

The service keeps todo items (`id`, `title`, `description`, `isImportant`) in
an in-memory list with a counter that numbers the next item, and exposes
them through five Express handlers. This project models:

- `todo_types.dfy` (`TodoTypes`): the JSON values a request body can carry,
  the stored `Item`, the creation record `NewTodo` and the partial-update
  record `Updates` (one `Option` slot per mutable field).
- `decimal.dfy` (`Decimal`): `nextId.toString()` as `ToDecimal`, with its
  inverse `ParseDecimal`; the round trip gives injectivity, which is why
  distinct counter values give distinct ids.
- `todo_model.dfy` (`TodoModel`): the store as the class `TodoStore`, whose
  fields `todos` and `nextId` are the module-level variables of the source.
  A ghost sequence `serials` records the counter value each live item was
  created with. The invariant `StoreInv` says that ids are the decimal forms
  of those numbers, that every number lies below `nextId`, and that the
  numbers grow along the list. From it follow distinct ids and ids that are
  never reused after a delete (`Issued`, `FreshId`). `FirstIndex` and
  `Lookup` are the reference definitions of `findIndex` and `find`. The
  method `FindIndex` is the linear search, proved against `FirstIndex`.
- `todo_controller.dfy` (`TodoController`): each handler is a method over
  the store. It makes the same checks as the JavaScript, in the same order,
  using JavaScript's `typeof` (`TypeOf`) and truthiness (`Truthy`). Its
  contract states the outcome in datatype terms: which inputs give 400, 404,
  200, 201 or 204, which error message is returned, and how the store
  changes. `BuyMilkSession` is a scenario on a fresh store that the verifier
  checks statically: create, update, delete, lookup, a second delete and an
  update of an unknown id, with the expected response of each asserted
  (the second delete only by its 404 status).

A response is a plain `(status, payload)` value. Ids arriving in the URL
are plain strings, compared exactly as the source compares them (`"01"`
does not find item `"1"`).

Three behaviours of the code that a reader might not expect, all modelled as written:
- `description` is never type-checked. Whatever value the request carries
  is stored, including `null`, numbers and the empty string; `JUndefined`
  means absent.
- `createTodo` rejects only a title that is not a non-empty string
  (`!title || typeof title !== "string"`). Whitespace is not trimmed.
- `updateTodo` accepts an empty-string title.

## Model

| member | source | states |
|---|---|---|
| Decimal.ToDecimal | src/models/todoModel.ts:18 | the id string for a counter value is a non-empty digit string with a leading `0` only for zero, like `Number#toString` |
| Decimal.ParseToDecimal | src/models/todoModel.ts:18 | reading the decimal id back gives the counter value it was made from |
| Decimal.ToDecimalInjective | src/models/todoModel.ts:18 | two counter values give the same id string exactly when they are equal |
| TodoModel.FirstIndex | src/models/todoModel.ts:30 | `findIndex`: -1 exactly when no item has the id, otherwise an index holding the id with no earlier match |
| TodoModel.Lookup | src/models/todoModel.ts:13 | `find`: absent exactly when no item has the id, otherwise the item at the first index holding that id |
| TodoModel.Merge | src/models/todoModel.ts:33 | shallow merge: each field present in the update overwrites, each absent field keeps its value, the id never changes |
| TodoModel.MergeNoUpdates | src/models/todoModel.ts:33 | merging the empty update `{}` returns the item unchanged |
| TodoModel.MergeIdempotent | src/models/todoModel.ts:33 | merging the same update twice equals merging it once |
| TodoModel.InvDistinct | src/models/todoModel.ts:4-5 | under the store invariant, ids are pairwise distinct and each was issued below the current counter |
| TodoModel.FreshId | src/models/todoModel.ts:17-22 | the id made from the current counter is not among the ids issued before, so ids are never reused even after deletions |
| TodoModel.InvAppend | src/models/todoModel.ts:17-22 | appending an item numbered with the counter and incrementing the counter keeps the invariant, and a lookup of the new id finds exactly that item at the end |
| TodoModel.InvReplace | src/models/todoModel.ts:33 | replacing an item by one with the same id keeps the invariant |
| TodoModel.InvRemove | src/models/todoModel.ts:41 | splicing out one item keeps the invariant and leaves no item with the removed id |
| TodoModel.TodoStore.constructor | src/models/todoModel.ts:4-5 | the store starts empty with the counter at 1, invariant established |
| TodoModel.TodoStore.GetAll | src/models/todoModel.ts:8-10 | returns the items in insertion order |
| TodoModel.TodoStore.FindIndex | src/models/todoModel.ts:30 | the linear search returns the first matching index, or -1 when there is none |
| TodoModel.TodoStore.GetById | src/models/todoModel.ts:12-14 | returns the first item with the id, or absent; changes nothing |
| TodoModel.TodoStore.Create | src/models/todoModel.ts:16-24 | the new item has id `toString(old nextId)` and the given fields; it is appended last with earlier items untouched; the counter grows by one; the id was never issued before; lookup of the id finds it |
| TodoModel.TodoStore.Update | src/models/todoModel.ts:26-35 | on a missing id returns null and changes nothing; otherwise returns the merge of the first match and stores it at the same index, with all other items and the counter unchanged |
| TodoModel.TodoStore.Delete | src/models/todoModel.ts:37-43 | returns whether the id was found; if so exactly that element is spliced out with the rest in order; otherwise nothing changes; the counter never changes and afterwards no item has the id, so a second delete returns false |
| TodoController.GetAllTodos | src/controllers/todoController.ts:7-14 | responds 200 with the full list |
| TodoController.GetTodoById | src/controllers/todoController.ts:17-30 | 404 "Todo not found" exactly when no item has the id, otherwise 200 with the item `find` returns |
| TodoController.CreateTodo | src/controllers/todoController.ts:33-58 | 400 exactly when title is not a non-empty string or isImportant is not a boolean, with the title message taking precedence; on 400 the store is untouched; otherwise 201 with the new item carrying title, description (unchecked) and isImportant, appended to the store |
| TodoController.BuildUpdates | src/controllers/todoController.ts:64-87 | fails exactly when a defined title is not a string (checked first) or a defined isImportant is not a boolean; otherwise each field is present exactly when the request value is defined, so an empty title and any description are accepted |
| TodoController.UpdateTodo | src/controllers/todoController.ts:61-99 | 400 with the matching message and the store untouched on a bad title or isImportant; 404 with the store untouched when the id is missing; otherwise 200 with the merged item, which replaces the first match in place |
| TodoController.DeleteTodo | src/controllers/todoController.ts:102-115 | 204 with no body and the item spliced out when the id exists, 404 and no change otherwise; afterwards the id is absent |

## Left out

- The `catch` branches answering 500 in every handler (src/controllers/todoController.ts:11-13 and the like): the in-memory store never throws, so no modelled input reaches them.
- src/index.ts is not part of this model: Express wiring, CORS and JSON middleware, the catch-all 404 route, the health check, `listen`, and the signal handlers are framework and process plumbing.
- src/database/database.ts is not part of this model: it is sqlite I/O through foreign libraries. The SQL-backed store is not among the source files, so its newest-first ordering and 0/1 boolean encoding are not modelled.
- Aliasing: `getAll` returns the live array and `create`/`update` return the stored object. The model returns value copies.
- Express `Request`/`Response` objects, `res.json` serialisation and asynchrony. A request body is the three destructured fields, and a response is a `(status, payload)` value.
- Decimal.ToDecimal: the counter is an unbounded natural. In the source, `nextId++` stops growing at 2^53, so from then on `create` would reuse the id "9007199254740992"; `FreshId` and the freshness clause of `TodoModel.TodoStore.Create` hold only because the model's counter is unbounded. Exponent notation from 10^21 is not captured either.
- JSON numbers are modelled as reals. Floating-point rounding is not modelled, and a parsed JSON number is never NaN.
