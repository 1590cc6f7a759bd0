# GrubDash controllers in Dafny

This project models the two Express controllers of GrubDash, one for dishes and one for orders. Each controller exports operations, and each operation is an ordered chain of middleware. A validator stage either calls `next()` or calls `next({status, message})`. The locator stage (`orderExist`, `dishExist`) finds the record named by the route id and attaches it to `res.locals`. A terminal handler then changes or reads the in-memory collection.

- `json.dfy` (module `Json`): the values a request body carries, JavaScript truthiness, and the numeric tests `<= 0` and `Number.isInteger`.
- `pipeline.dfy` (module `Pipeline`): the signals (`Outcome`), errors and responses. It also holds `Run`, the short-circuiting chain runner, and its lemmas. The parts both controllers share live here: `hasProperty`, `find` by id, the body-id check and the locator.
- `orders.dfy` (module `Orders`): the order validators and the four order chains. The class `OrderStore` holds the collection of orders. Its methods are `list`, `create`, `update` and `destroy`, plus one handler per route.
- `dishes.dfy` (module `Dishes`): the price validator and the three dish chains. The class `DishStore` holds the collection of dishes. Its methods are `list`, `create` and `update`, plus one handler per route.

How the source maps to Dafny:
- A chain is a `seq` of stage descriptors.
- `Eval` gives one stage's signal for the current collection, route id and payload.
- `Run` stops at the first stage that halts.
- A stored record is a datatype value. An in-place field assignment becomes an update of that record at its index in the collection.
- The fresh id that `nextId()` returns is passed in as a parameter. The caller must supply an id that is not already in the collection.

Four behaviours of the code that the model keeps as written:
- **Stored order fields.** `create` reads and stores the payload's misspelt `modbileNumber` and never sets `mobileNumber` (`Orders.OrderStore.Create`).
- **Not-found signal.** An unknown id gets a 404 and never a `next()` (`Pipeline.Exist`).
- **Locator double signal.** With a mismatching body id, a found record gets an error followed by `next()`. This is recorded under Findings.
- **Delivered orders can still change.** `statusValidator` checks only the payload status, and `create` stores any status. A stored order whose status is "delivered" is therefore overwritten by a PUT whose body passes and asks for "pending" (`Orders.UpdateIgnoresStoredStatus`, `Orders.UpdateAcceptsDeliveredOrder`).

## Model

| member | source | states |
|---|---|---|
| `Pipeline.Run` | src/orders/orders.controller.js:164-187 | A chain continues iff every stage continues; when it halts, the result is the halt of one of its stages |
| `Pipeline.FirstHaltDecides` | src/orders/orders.controller.js:164-187 | If every stage before stage k continues and stage k halts, the chain's result is stage k's halt; later stages do not matter |
| `Pipeline.RunAppend` | src/orders/orders.controller.js:174-184 | A chain split in two: the second part decides only if the first part continued |
| `Pipeline.RunSnoc` | src/orders/orders.controller.js:174-184 | A stage appended to a chain runs only if the chain before it continued |
| `Pipeline.RunAgrees` | src/orders/orders.controller.js:164-172 | A chain's result depends only on what its stages signal |
| `Pipeline.HasProperty` | src/orders/orders.controller.js:13-25 | Continues iff `data[field]` is not one of undefined, null, false, 0 or ""; otherwise halts with 400 naming the field. The copy in src/dishes/dishes.controller.js:25-37 is identical up to its message |
| `Pipeline.FindFirst` | src/orders/orders.controller.js:75 | `find` by id: none iff no record has the id; otherwise the index of the first record with it |
| `Pipeline.Locate` | src/orders/orders.controller.js:72-95 | The locator's deciding signal: continue iff the id is stored and the body id is absent or equal; 404 for an unknown id; 400 for a stored id with a different body id |
| `Pipeline.Exist` | src/orders/orders.controller.js:72-95 | The locator as written, which is the same in src/dishes/dishes.controller.js:52-75. It attaches the first record with the id. Found and matching: the single signal `next()`. Found with a different body id: a 400 error and then `next()`. Not found: exactly a 404, followed by a 400 when the body id also differs, and never a continue. The first signal is always `Locate` |
| `Pipeline.IdsPush` | src/orders/orders.controller.js:58-70 | Pushing a record pushes its id onto the ids |
| `Pipeline.PushKeepsIdsUnique` | src/orders/orders.controller.js:58-70 | Pushing a record under a fresh id keeps ids unique; `create` in src/dishes/dishes.controller.js:39-50 pushes the same way |
| `Pipeline.Located` | src/orders/orders.controller.js:75 | The record attached to `res.locals` (`dishes.find` in src/dishes/dishes.controller.js:55 likewise): present iff the id is stored, and then the FIRST stored record with that id |
| `Orders.DishesValidator` | src/orders/orders.controller.js:27-39 | Continues iff `dishes` is an array with at least one entry, else 400 |
| `Orders.QuantityRejected` | src/orders/orders.controller.js:47 | The JavaScript condition rejects a quantity iff it is not an integer greater than 0 |
| `Orders.FirstBadEntry` | src/orders/orders.controller.js:45-53 | None iff every entry is acceptable; otherwise the smallest index of an entry that is not |
| `Orders.QuantityOutcome` | src/orders/orders.controller.js:41-56 | For an array: continues iff every entry has a positive integer quantity. Otherwise it reports the smallest bad index with 400, or a thrown TypeError if that entry is null or undefined. For a null or undefined `dishes`: a thrown TypeError |
| `Orders.QuantityValidator` | src/orders/orders.controller.js:41-56 | The `for` loop with early exit computes exactly `QuantityOutcome` |
| `Orders.StatusValidator` | src/orders/orders.controller.js:97-121 | The payload status "delivered" always halts with 404. Otherwise it continues iff the status is "pending", "preparing" or "out-for-delivery", and halts with 400 for anything else |
| `Orders.DeletionStatus` | src/orders/orders.controller.js:138-149 | Continues iff the located order's stored status is exactly "pending", else 400 |
| `Orders.CreateAccepts` | src/orders/orders.controller.js:165-172 | The create chain continues iff `deliverTo` and `mobileNumber` are truthy and `dishes` is a non-empty array whose every entry has a positive integer quantity |
| `Orders.CreateRejectsMissingField` | src/orders/orders.controller.js:165-168 | A payload missing `deliverTo`, `mobileNumber` or `dishes` is refused with 400 naming the first missing one, in that order |
| `Orders.CreateReportsFirstBadQuantity` | src/orders/orders.controller.js:165-172 | When the other fields pass, the create chain reports the first entry with a bad quantity by its index, with 400 |
| `Orders.CreateIgnoresStatus` | src/orders/orders.controller.js:58-70 | The create chain's result does not depend on the payload `status`, which `create` stores unvalidated |
| `Orders.UpdateChecksBodyFirst` | src/orders/orders.controller.js:174-184 | The update chain's result is that of its body checks if they halt, and the locator's otherwise |
| `Orders.UpdateBodyAccepts` | src/orders/orders.controller.js:175-181 | The body checks continue iff `deliverTo` and `mobileNumber` are truthy, `dishes` is acceptable and `status` is one of the three accepted strings |
| `Orders.BodyNeverNotFound` | src/orders/orders.controller.js:175-181 | No body check of the update chain reports a not-found error |
| `Orders.NotFoundOnlyFromLocator` | src/orders/orders.controller.js:72-95 | Only the locator stage reports a not-found error |
| `Orders.UpdateBadBodyBeforeNotFound` | src/orders/orders.controller.js:174-184 | When the body is bad, the update's answer is the body error, so a bad body on an unknown id is never answered with not-found |
| `Orders.UpdateRefusesDelivered` | src/orders/orders.controller.js:102-106 | An update asking for status "delivered" never goes through |
| `Orders.BodyReportsDelivered` | src/orders/orders.controller.js:97-106 | If the other body fields pass, the body checks halt on "delivered" with 404 |
| `Orders.UpdateReportsDelivered` | src/orders/orders.controller.js:174-184 | If the other body fields pass, an update to "delivered" is answered with 404 whether or not the order exists |
| `Orders.UpdateIgnoresStoredStatus` | src/orders/orders.controller.js:97-121 | Changing the stored status of any order never changes the update chain's result; only the payload status is validated |
| `Orders.UpdateAcceptsDeliveredOrder` | src/orders/orders.controller.js:174-184 | A located order whose stored status is "delivered" still passes the update chain when the body is acceptable, the payload status is "pending" and the ids agree |
| `Orders.DeleteAccepts` | src/orders/orders.controller.js:185 | The delete chain continues iff the order is found, the body id agrees and its stored status is "pending". A found, agreeing, non-pending order gets 400 |
| `Orders.ReadLocates` | src/orders/orders.controller.js:186 | The read chain continues iff the order is found and the body id agrees; an unknown id gets 404 |
| `Orders.Without` | src/orders/orders.controller.js:151-158 | `findIndex` plus `splice`. With no match, the collection is unchanged. With a match, exactly the first order with the id is removed and the rest keep their order |
| `Orders.DestroyRemovesOrder` | src/orders/orders.controller.js:151-158 | With unique ids, after `destroy` no order has the id, ids stay unique and every other order remains |
| `Orders.OrderStore.constructor` | src/orders/orders.controller.js:5 | The collection starts as the seed orders, in order |
| `Orders.OrderStore.List` | src/orders/orders.controller.js:9-11 | Answers 200 with the whole collection as it is |
| `Orders.OrderStore.Create` | src/orders/orders.controller.js:58-70 | Appends exactly one order at the end, with the fresh id, the payload's `deliverTo`, `status` and `dishes`, the payload's misspelt `modbileNumber`, and no `mobileNumber`. Earlier orders are unchanged and ids stay unique |
| `Orders.OrderStore.Update` | src/orders/orders.controller.js:123-135 | Overwrites `deliverTo`, `mobileNumber`, `status` and `dishes` of the order at the located index. Its id, its `modbileNumber`, the length and every other order are unchanged |
| `Orders.OrderStore.Destroy` | src/orders/orders.controller.js:151-158 | The collection becomes `Without(old collection, route id)` |
| `Orders.OrderStore.HandleCreate` | src/orders/orders.controller.js:165-172 | A halted create chain answers with its error and leaves the collection unchanged; otherwise one new order is appended and answered with 201 |
| `Orders.OrderStore.HandleUpdate` | src/orders/orders.controller.js:174-184 | A halted update chain answers with its error and leaves the collection unchanged; otherwise the first order with the id is overwritten and answered with 200 |
| `Orders.OrderStore.HandleDelete` | src/orders/orders.controller.js:185 | A halted delete chain answers with its error and leaves the collection unchanged; otherwise the order is removed and 204 is answered |
| `Orders.OrderStore.HandleRead` | src/orders/orders.controller.js:186 | A halted read chain answers with its error; otherwise 200 with the located order. Nothing changes, so two reads give the same answer |
| `Dishes.PriceValidator` | src/dishes/dishes.controller.js:11-23 | Continues iff `data.price` is an integer greater than 0, else 400 |
| `Dishes.CreateAccepts` | src/dishes/dishes.controller.js:104-111 | The create chain continues iff `name`, `description` and `image_url` are truthy and `price` is a positive integer |
| `Dishes.UpdateAccepts` | src/dishes/dishes.controller.js:94-102 | The update chain continues iff `name`, `description` and `image_url` are truthy, `price` is a positive integer, the dish is found and the body id agrees |
| `Dishes.ZeroPriceReportedMissing` | src/dishes/dishes.controller.js:25-37 | A price of 0 is refused as a missing price by both create and update, before `priceVaildator` runs |
| `Dishes.UpdateNotFoundBeforeImage` | src/dishes/dishes.controller.js:94-102 | When name, description and price are present, an unknown id gets 404 even if `image_url` is missing or the price is bad |
| `Dishes.ReadLocates` | src/dishes/dishes.controller.js:103 | The read chain continues iff the dish is found and the body id agrees; an unknown id gets 404 |
| `Dishes.ReadAfterCreate` | src/dishes/dishes.controller.js:39-50 | A dish created under a fresh id is found by a later read, which continues and locates exactly the created dish |
| `Dishes.DishStore.constructor` | src/dishes/dishes.controller.js:3 | The collection starts as the seed dishes, in order |
| `Dishes.DishStore.List` | src/dishes/dishes.controller.js:7-9 | Answers 200 with the whole collection as it is |
| `Dishes.DishStore.Create` | src/dishes/dishes.controller.js:39-50 | Appends exactly one dish at the end, with the fresh id and the payload's four fields; earlier dishes are unchanged and ids stay unique |
| `Dishes.DishStore.Update` | src/dishes/dishes.controller.js:81-91 | Overwrites `name`, `description`, `price` and `image_url` of the dish at the located index. Its id, the length and every other dish are unchanged |
| `Dishes.DishStore.HandleCreate` | src/dishes/dishes.controller.js:104-111 | A halted create chain answers with its error and leaves the collection unchanged; otherwise one new dish is appended and answered with 201 |
| `Dishes.DishStore.HandleUpdate` | src/dishes/dishes.controller.js:94-102 | A halted update chain answers with its error and leaves the collection unchanged; otherwise the first dish with the id is overwritten and answered with 200 |
| `Dishes.DishStore.HandleRead` | src/dishes/dishes.controller.js:77-79 | A halted read chain answers with its error; otherwise 200 with the located dish. Nothing changes, so two reads give the same answer |

## Left out

- Express itself is not modelled: `res.json`, `res.status`, `res.sendStatus`, routers and the application's error handler. A chain's answer is its first halting signal. How Express dispatches a second `next` call from the same middleware is not modelled.
- A thrown TypeError is modelled as a halt with status 500. This covers reading `quantity` of a null entry, and `order.status` with no located order. What the application's error handler really sends is not part of this model.
- `nextId` (src/utils/nextId) is not part of this model. The fresh id is a parameter that must not already be stored.
- The seed files under src/data are not part of this model. A store starts from any sequence of records. Seed fields other than the modelled ones are not represented.
- The unused imports of `express`, `fs.stat` and `path` are left out.
- Floating-point numbers are abstract: `NonInt` stands for every non-integer number, and NaN is not represented.
- A body whose `data` is not an object (null, an array, a string) is not modelled. `data` is a map, and a missing `data` is the empty map.
- Error messages are reduced to a tag plus the field name, index or ids they carry.
- Each record is a value stored at an index. The shared object that `res.locals` and the response point at is not modelled, so aliasing is not represented.
- Concurrency between requests is out of scope. Each handler runs to completion on its own.
- `Pipeline.BodyIdMismatch`: a non-string body id always counts as different from the route id. JavaScript's loose `!=` would convert it first, so a number 5 equals the route id "5".
- `Orders.QuantityOutcome`: a `dishes` value that is a non-empty string or an object with a `length` is treated as having no entries. Neither can reach this stage in either chain, because `dishesValidator` runs first.
- `Orders.StatusValidator`: the `length` of a plain object status is ignored. Such a status is rejected with 400 either way.
- `Json.Member`: only plain objects have properties. Built-in properties of strings and arrays are not modelled, because the controllers only read `quantity` this way.

## Findings

| source | as written | input that shows it | evidently intended | confidence | as-written member | corrected member |
|---|---|---|---|---|---|---|
| src/orders/orders.controller.js:77-94 | The not-found and id-mismatch branches call `next(error)` without returning, and the found branch then calls `next()` as well | Order "1" is stored and the body is `{data: {id: "2"}}` on route id "1": the signals are the 400 mismatch and then `next()`. With an unknown id and a mismatching body id, the signals are 404 then 400 | Each failure ends the middleware with exactly one signal | high; not executed | `Pipeline.Exist` | `Pipeline.Locate` |
| src/dishes/dishes.controller.js:57-74 | The same copy of the locator: `next(error)` without returning, then `next()` for a found dish | Dish "1" is stored and the body is `{data: {id: "2"}}` on route id "1": the signals are the 400 mismatch and then `next()` | Each failure ends the middleware with exactly one signal | high; not executed | `Pipeline.Exist` | `Pipeline.Locate` |
