# Luggage tracker — a Dafny model

The luggage tracker is a small contract that follows a piece of luggage from
check-in to collection. Each bag is a `LuggageItem` record keyed by the id of its
luggage tag and kept in one persistent key-value table, `luggageRecords`. The
contract's operations check a bag in (insert-if-absent), look it up, delete it,
move it through the statuses `checked-in`, `en-route`, `ready` and `collected`,
compare its owner with the calling account, and list, count or clear all records.

The model has four modules:

- `Wrappers` (wrappers.dfy): `Option`, the nullable result of a lookup.
- `Store` (store.dfy): the persistent unordered map as a class. It holds a `map` from key
  to stored value and the vector of keys that `values()` walks. `Valid()` says the key
  vector lists every stored key exactly once. The store keeps values, not object references:
  a record changes only when it is `Set` again.
- `Model` (assembly/model.ts): `LuggageRecord` is the stored form of an item. The class
  `LuggageItem` has the source's nine fields, and its methods assign them in place. Each
  mutator's postcondition ties the new `Record()` to a function of the old one
  (`CheckedIn`, `EnRouted`, `ReadiedAt`, `Collected`), and those functions state which
  fields are set and which keep their value. `Update`, `Apply` and `ApplyAll` describe any
  sequence of status updates. The lemmas about them give the properties that hold for
  the whole lifecycle.
- `Index` (assembly/index.ts): the exported operations. The store is passed in as a
  parameter, and so are the caller's account (`sender`) and the block time (`now`). Each
  update does what the source does: get the record, rebuild the object, call its mutator
  and set it back. Scenario methods at the end follow the unit tests, each on a fresh store
  with the tests' data; two more chain the whole lifecycle and a clear.

The model follows the code as written:

- `collectLuggage` checks nothing about the caller, although its own doc comment at
  assembly/index.ts:72-77 says a wrong account is rejected. Neither the function nor
  `LuggageItem.collectLuggage` looks at `context.sender`, so `Index.CollectLuggage` has no
  `sender` parameter.
- No operation looks at the current status. Any update is accepted from any status
  (`Model.StatusIsLastWritten`), and the unit tests go from checked-in straight to ready
  and to collected.
- `checkInLuggageItem` does not reject an empty id.
- The update operations and `verifyOwner` cast the nullable `get` result to non-null.
  The model turns this into the precondition `id in store.records`.

## Model

| member | source | states |
|---|---|---|
| `Model.CheckedIn` | assembly/model.ts:21-29 | check-in sets id, flight number, origin, destination, owner = caller, check-in time = now and status "checked-in"; check-out time and collection point keep their earlier values |
| `Model.EnRouted` | assembly/model.ts:42-44 | status becomes "en-route"; every other field is unchanged |
| `Model.ReadiedAt` | assembly/model.ts:47-50 | collection point becomes the given one and status "ready"; every other field is unchanged |
| `Model.Collected` | assembly/model.ts:53-56 | check-out time becomes now and status "collected"; identity fields, owner, check-in time and collection point are unchanged; no caller identity is an input |
| `Model.LuggageItem.constructor` | assembly/model.ts:18 | a new item starts with all fields zero-initialised |
| `Model.LuggageItem.FromRecord` | assembly/index.ts:52 | the object obtained from a stored record carries exactly that record's fields |
| `Model.LuggageItem.CheckIn` | assembly/model.ts:21-29 | the item's fields become `CheckedIn` of their old values |
| `Model.LuggageItem.VerifyPassenger` | assembly/model.ts:32-38 | true exactly when the owner account equals the given sender; changes no field |
| `Model.LuggageItem.EnRoute` | assembly/model.ts:42-44 | the item's fields become `EnRouted` of their old values |
| `Model.LuggageItem.ReadyForCollection` | assembly/model.ts:47-50 | the item's fields become `ReadiedAt` of their old values and the given point |
| `Model.LuggageItem.CollectLuggage` | assembly/model.ts:53-56 | the item's fields become `Collected` of their old values and the time |
| `Model.UpdatesKeepIdentity` | assembly/model.ts:42-56 | no sequence of en-route, ready and collect updates changes id, flight, origin, destination, owner or check-in time |
| `Model.StatusIsLastWritten` | assembly/model.ts:42-56 | updates are accepted in any order: after a non-empty sequence the status is the one written by the last update |
| `Model.RepeatedUpdateIsOnce` | assembly/model.ts:42-56 | applying en-route, ready(p) or collect(t) k >= 1 times gives the same record as applying it once (idempotence) |
| `Store.UnorderedMap.constructor` | assembly/model.ts:75 | a new store is empty and valid |
| `Store.UnorderedMap.Contains` | assembly/model.ts:75 | true exactly when the key is stored |
| `Store.UnorderedMap.Get` | assembly/model.ts:75 | `None` exactly when the key is absent, otherwise the stored value |
| `Store.UnorderedMap.Set` | assembly/model.ts:75 | the map is updated at the key; a new key is appended to the key vector, an existing one keeps its place |
| `Store.UnorderedMap.Delete` | assembly/model.ts:75 | the key is removed, the other entries are unchanged, and an absent key is a no-op |
| `Store.UnorderedMap.Length` | assembly/model.ts:75 | the length of the key vector equals the number of stored entries |
| `Store.UnorderedMap.Values` | assembly/model.ts:75 | one value per stored key, in key-vector order, and every stored value is among them |
| `Store.UnorderedMap.Clear` | assembly/model.ts:75 | the store becomes empty and stays valid |
| `Index.CheckInLuggageItem` | assembly/index.ts:17-29 | on an absent id: returns "ok", stores `CheckedIn` of a new item under the id and the count grows by exactly 1; on a present id: returns "id-already-exists" and leaves the store unchanged |
| `Index.GetLuggageItem` | assembly/index.ts:34-37 | `None` exactly when the id is not stored, otherwise the stored record; changes nothing |
| `Index.RemoveLuggageItem` | assembly/index.ts:42-44 | the id is no longer stored, all other entries are unchanged, and the count drops by 1 only if the id was present |
| `Index.LuggageEnRoute` | assembly/index.ts:51-55 | for a stored id, replaces only that entry with `EnRouted` of it; keys and count unchanged; no status checked |
| `Index.ReadyForCollection` | assembly/index.ts:65-69 | for a stored id, replaces only that entry with `ReadiedAt` of it; keys and count unchanged; no status checked |
| `Index.CollectLuggage` | assembly/index.ts:78-82 | for a stored id, replaces only that entry with `Collected` of it; keys and count unchanged; no owner or status checked |
| `Index.VerifyOwner` | assembly/index.ts:88-95 | for a stored id, true exactly when its owner equals the sender; changes nothing |
| `Index.GetAllLuggage` | assembly/index.ts:102-105 | exactly one record per stored id: the i-th item is the record stored under the i-th key, every stored record is among them and nothing else is |
| `Index.TotalBags` | assembly/index.ts:110-112 | the number of stored records |
| `Index.Clear` | assembly/index.ts:117-119 | afterwards no record is stored |
| `Index.CheckInScenario` | assembly/__tests__/index.unit.spec.ts:19-38 | one check-in answers "ok", gives count 1 and the id is stored |
| `Index.DeleteScenario` | assembly/__tests__/index.unit.spec.ts:43-50 | after check-in and remove, the lookup answers `None` |
| `Index.DuplicateCheckInScenario` | assembly/__tests__/index.unit.spec.ts:56-63 | the second check-in of the same id answers "id-already-exists" and the count stays 1 |
| `Index.EnRouteScenario` | assembly/__tests__/index.unit.spec.ts:68-75 | after check-in and en-route, the stored status is "en-route" |
| `Index.ReadyWithoutTransitScenario` | assembly/__tests__/index.unit.spec.ts:80-87 | a checked-in bag goes straight to ready, with no en-route step; the stored collection point is "Carousel 8" and the status "ready" |
| `Index.LifecycleScenario` | assembly/index.ts:51-82 | the three updates chained on one bag: check-in, en-route, ready at "Carousel 8", collect; the record ends collected at that carousel with the collect time, and keeps its id, flight, owner and check-in time |
| `Index.CollectWithoutTransitScenario` | assembly/__tests__/index.unit.spec.ts:92-99 | a checked-in bag is collected directly, with no en-route or ready step and no caller identity; another account still fails the owner check |
| `Index.ClearScenario` | assembly/index.ts:117-119 | after two check-ins and a clear, the count is 0 and the list is empty |

## Left out

- NEAR persistence: the on-chain storage behind `PersistentUnorderedMap`, `@nearBindgen` serialisation and the `storage`/`Context` imports. The store is modelled as an abstract map that holds values.
- The host context: `context.sender` and `context.blockTimestamp` are the parameters `sender` and `now`.
- `generateRandomString`: it is unused, and it depends on randomness and an external base64 encoder.
- The unused local `timestamp` in `checkInLuggageItem`: it has no effect.
- The order of `values()`: the model keeps insertion order, and `Delete` keeps the order of the remaining keys. The library may reorder keys when it deletes. No operation depends on the order.
- The null cast in the update operations and `verifyOwner`: the code does not define what happens when the id is absent, and the model does not say. These operations require the id to be stored.
- Fields of a new `LuggageItem` that its empty constructor never assigns: modelled as empty strings and 0.
- Index.TotalBags: returns an unbounded count, while the source returns an `i32`. A store with more than 2^31 - 1 records is not modelled.
- Status-order guards and an owner check on collect or remove: the code has neither, so the model has neither.
