# Two minimal HTTP servers, modelled in Dafny

This project models the logic of the two servers in this repository and
proves properties of the model.

- **The static router** (`01_web_server/server-node.js`) answers every
  request from its url alone. `"/"` and `"/register"` get 200 with a fixed
  greeting. Every other url gets 404 with `"4O4 Page Not Found."`. The
  content type is always the non-standard `"plain/text"`. Module
  `WebServer`, file `web_server.dfy`: the function `Route` and lemmas about it.
- **The product API** (`02_express/index.js`) keeps a process-wide array of
  records `{ id, name, price }` and an id counter that starts at 1. It offers
  five handlers: create, list, get by id, update and delete. Module
  `ProductApi`, file `products.dfy`, defines each handler once, as a function
  from the store before a request to the store after it plus what the
  handler sends. The class `ProductStore` holds the two variables (`prodData`
  and `uniqueId`). It has one method per handler, and each method is proved
  equal to its function. The invariant `WellFormed` holds in every reachable
  state. It says that ids along the array are positive and strictly
  increasing, and that all of them lie below the counter.
- `ecma.dfy` (module `Ecma`) holds the ECMAScript semantics the handlers rely on.
  These are numbers with NaN, strict equality, ToIntegerOrInfinity (section
  7.1.5 of ECMA-262) and `Array.prototype.splice`. `wrappers.dfy` holds `Option`.

The handlers are modelled as they behave, defects included:

- **Delete.** The not-found guard compares the found record (an object, or
  `undefined`) with `-1` using `===`. That comparison is always false, so the
  guard never fires. `splice(prod, 1)` then gets that object or `undefined`
  as its start. ToNumber turns it into NaN, and ToIntegerOrInfinity turns NaN
  into 0. So delete removes the first record whatever id was asked for, does
  nothing on an empty array, and always answers 204 `"Deleted"`.
- **Get and update on a missing id.** The 404 text is sent first, and the
  handler then keeps going. Get attempts a second send. Update throws when it
  assigns to `prod.name` on `undefined`, before any write. The model records
  this as `FailedAfter(404 reply)` and leaves the store unchanged.
- Get and update use two spellings of the not-found text:
  `"No Product Found!"` and `"No product Found!"`. The model keeps both. The
  list handler answers 201, not 200, and the model keeps that too.

Requests are handled one at a time, each to completion, as on Node's event
loop. `Handle` dispatches a request to its handler and `Run` applies a
sequence of requests. The lemmas about `Run` state what holds across many
requests: the invariant holds, ids are handed out consecutively and none is
handed out twice.

## Model

| member | source | states |
|---|---|---|
| `WebServer.Route` | 01_web_server/server-node.js:4-18 | The content type is always `plain/text`. The status is 200 exactly for `"/"` and `"/register"` and 404 for every other url. The body is `"Hello There !"`, `"You are current in register page!"` or `"4O4 Page Not Found."` to match. |
| `WebServer.SameReplyIffSameBranch` | 01_web_server/server-node.js:5-17 | Two urls get the same reply exactly when they are equal or both unknown: exactly one branch runs and it decides the reply. |
| `WebServer.ExtendedPathIsNotFound` | 01_web_server/server-node.js:5-9 | Matching is exact string equality. `"/register"` followed by anything, or `"/"` followed by anything other than `"register"`, gets the 404 reply. |
| `WebServer.TrailingSlashAndQueryNotFound` | 01_web_server/server-node.js:5-9 | `"/register/"` and `"/?a=1"` both get 404. |
| `Ecma.Splice` | 02_express/index.js:44 | `splice(start, deleteCount)` with no items to insert. Elements before the clamped start keep their places, the clamped count of elements is removed and the rest move down. |
| `Ecma.SpliceNaNStart` | 02_express/index.js:44 | `splice` with a NaN start and count 1 removes the first element, or nothing from an empty array. |
| `ProductApi.FindIndex` | 02_express/index.js:21 | The lookup `find(pid => pid.id === parseInt(id))` stops at the first record whose id strictly equals the parsed key. It gives no index exactly when no record matches. |
| `ProductApi.Find` | 02_express/index.js:21 | `find` returns `undefined` exactly when no record matches. Otherwise it returns the record at the first matching position. |
| `ProductApi.PostProduct` | 02_express/index.js:9-14 | Create appends one record at the end, with id equal to the old counter and the caller's `name` and `price` unchanged. Earlier records stay as they were and the counter goes up by exactly 1. The reply is 201 with the appended record. |
| `ProductApi.GetProducts` | 02_express/index.js:16-18 | List changes nothing and answers 201 with the whole array in insertion order. So two lists with no write between them give the same reply. |
| `ProductApi.GetProduct` | 02_express/index.js:20-26 | Get by id changes nothing. It succeeds exactly when some record has that id, and then answers 202 with the first such record. Otherwise its first reply is 404 `"No Product Found!"`. |
| `ProductApi.PutProduct` | 02_express/index.js:28-37 | Update never changes the counter, the length or any record's id. On a hit it replaces `name` and `price` of the first match in place, keeps every other record and answers 200 with the updated record. On a miss the store is unchanged and the first reply is 404 `"No product Found!"`. |
| `ProductApi.DeleteProduct` | 02_express/index.js:39-46 | Delete never reports not-found and always answers 204 `"Deleted"`. It removes the element at index 0 of a non-empty array, whatever the id, and changes nothing on an empty one. The counter is untouched. |
| `ProductApi.Handle` | 02_express/index.js:9-46 | Dispatching a request to its route's handler moves the counter by exactly 1 for a create and leaves it alone for the other four handlers. |
| `ProductApi.IdsAscending` | 02_express/index.js:6-12 | In a well-formed store the ids are pairwise strictly increasing along the array, so they are distinct. Each id is positive and below the counter. |
| `ProductApi.PostIdIsFresh` | 02_express/index.js:11 | The id a create hands out belongs to no record already in a well-formed store. |
| `ProductApi.FindsOwnRecord` | 02_express/index.js:21 | In a well-formed store, looking up a record's own id finds that record's position. |
| `ProductApi.PostPreservesWellFormed` | 02_express/index.js:11-12 | Appending the record with the current counter and then incrementing the counter keeps the store well formed. |
| `ProductApi.PutPreservesWellFormed` | 02_express/index.js:34-35 | Overwriting `name` and `price` keeps the store well formed. |
| `ProductApi.DeletePreservesWellFormed` | 02_express/index.js:44 | Removing the first record keeps the store well formed. |
| `ProductApi.HandlePreservesWellFormed` | 02_express/index.js:9-46 | Each of the five handlers keeps the store well formed. |
| `ProductApi.RunPreservesWellFormed` | 02_express/index.js:9-46 | Any sequence of requests from a well-formed store leaves it well formed. |
| `ProductApi.ReachableStoresAreWellFormed` | 02_express/index.js:6-7 | Every store reachable from the initial `[]` and counter 1 is well formed. |
| `ProductApi.AssignedIdsConsecutive` | 02_express/index.js:7-13 | The creates in any sequence of requests get consecutive ids starting at the counter, whatever lies between them. The counter ends just past the last id handed out. |
| `ProductApi.IdsFromStartAreOneToN` | 02_express/index.js:7-11 | From a fresh process the n-th create gets id n, regardless of intervening updates and deletes, so ids strictly increase and are never reused. |
| `ProductApi.PutThenGet` | 02_express/index.js:20-36 | After an update of an existing id, a get of that id answers 202 with the same id and the new `name` and `price`. |
| `ProductApi.DeleteIgnoresId` | 02_express/index.js:40-44 | Delete gives the same store and reply whichever id it is asked for. |
| `ProductApi.DeleteRemovesWrongRecord` | 02_express/index.js:40-45 | Take records 1 and 2. Deleting id 2 removes record 1, keeps record 2 and still answers 204. |
| `ProductApi.PenScenario` | 02_express/index.js:9-36 | After creating `Pen`/10 on a fresh process, the list is exactly `[{1, Pen, 10}]` and get 1 answers 202 with it. Get 999 answers 404 first. After updating id 1 to `Pencil`/5, get 1 shows the new values under id 1. |
| `ProductApi.ProductStore.constructor` | 02_express/index.js:6-7 | The store starts with no records and the counter at 1, and it is well formed. |
| `ProductApi.ProductStore.Post` | 02_express/index.js:9-14 | The new state and the reply are those of `PostProduct` on the old state, and the invariant is kept. |
| `ProductApi.ProductStore.GetAll` | 02_express/index.js:16-18 | The reply is that of `GetProducts` on the current state. The method changes nothing. |
| `ProductApi.ProductStore.GetById` | 02_express/index.js:20-26 | It succeeds exactly when some record matches the key. The reply is that of `GetProduct`, and the method changes nothing. |
| `ProductApi.ProductStore.Put` | 02_express/index.js:28-37 | The fields are written in place at the found position. The new state and reply are those of `PutProduct`, and the invariant is kept. |
| `ProductApi.ProductStore.Delete` | 02_express/index.js:39-46 | The array is spliced at the coerced start. The new state and reply are those of `DeleteProduct`, and the invariant is kept. |

## Left out

- Express setup is not modelled: the app object, `express.json()` body parsing, reading `PORT` through `dotenv`, `app.listen`/`server.listen` and the `console.log` calls. They are framework, environment and I/O concerns.
- What reaches the wire after a handler's first reply is not modelled: the failed second send in get, the TypeError in update, and how Express reports them. The model keeps only the first reply (`FailedAfter`) and the fact that the store is not touched. Likewise, Express drops the body of a 204; the model keeps the `"Deleted"` argument as written.
- `parseInt` on the path parameter is not modelled. The key arrives already parsed, as an integer or NaN (`Ecma.JsNumber`), and NaN matches no record.
- JSON serialisation, status lines and headers are not modelled, apart from the status, the content-type value and the body.
- Records are values in a sequence, not shared objects. The update handler's in-place field writes become replacing the element at the position `find` returned. Nothing else holds a reference to a record, because each record is pushed once and replies are serialised at once, so no aliasing is lost.
- `ProductApi.Handle`: ids and the counter are unbounded integers. JavaScript numbers are doubles, so past 2^53 `Uniqueid++` would stop producing distinct ids, and the model does not capture that.
- `Ecma.Splice`: it models only the numbers the handlers can produce (integers and NaN). Infinite and fractional starts or counts are not represented.
- Concurrency is left out. The event loop runs each handler to completion, so each operation is atomic.
- `name` and `price` are arbitrary values: type parameters with no assumptions, and no reasoning about prices.
- The router's listening address and port (`127.0.0.1:3000`) and its startup log line are I/O and are not modelled.
