# Production queue of the coffee kiosk service, in Dafny

This project models the in-memory core of the `pos_manufacture_queue` service
(a Kotlin/Ktor back end between the points of sale, the kitchen screens and
an Odoo ERP) and proves properties of it:

- the `ProductionCache` object: a map from order name (origin) to that order's
  production records, a FIFO admission queue of origins, and the list of
  submissions waiting to be created in the ERP, with `setNext`, `getNext`,
  `updateCache`, `hasCacheChanged`, `syncDb`, `getProductionItemFromCache`,
  `createNewProductionItem`, `getQueue` and `getCache`;
- the `OrderCache` object, a plain FIFO of customer orders;
- the production HTTP handlers `/setNextProduction`, `/confirmProduction`,
  `/popProductionQueue` and `/syncDb`, as compound operations on the cache;
- the `notifyClients` broadcast loop of `WebSocketClients`.

Layout, one module per source file:

| file | module | models |
|---|---|---|
| wrappers.dfy | Wrappers | Kotlin's nullable results as `Option` |
| sequences.dfy | Sequences | "no element twice", the shape of a linked set or a key order |
| production_model.dfy | ProductionModel | the records of model/Production.kt |
| order_model.dfy | OrderModel | the records of model/Order.kt |
| production_cache_logic.dfy | ProductionCacheLogic | the value-level behaviour of ProductionCache.kt: the ordered map, the merge, the change check, the lookups, the pieces of the sync pass |
| production_cache.dfy | ProductionCacheObject | the `ProductionCache` object as a class whose methods update its fields in place, proved against ProductionCacheLogic |
| order_cache.dfy | OrderCacheObject | the `OrderCache` object |
| websocket_clients.dfy | WebSocketClientsObject | the session set and the broadcast |
| production_routes.dfy | ProductionRoutes | the four handlers and one tick of the periodic sync |
| scenarios.dfy | Scenarios | end-to-end scenarios, proved for all submissions of the given shape |

Modelling choices:

- `productionCache` is a Kotlin `mutableMapOf`, which is a `LinkedHashMap`. It
  is modelled as `LinkedCache(order, entries)`, where `order` records the
  insertion order of the keys. That order is what `values.flatten().find`
  walks in `getProductionItemFromCache`.
- Kotlin data classes compare by value, and so do Dafny datatypes; `hasCacheChanged`'s `contains` is value membership.
- The `Double`/`Float` fields (`ComponentPayload.qty`, the order price) are
  only stored, copied and compared. They are modelled as opaque integer codes.
- The ERP is an input:
  - the outcome of each `queryProduction()` call (records, or a failure, which
    the sync pass reads as an empty list);
  - the answers to the successive `createProduction` calls (a string, or an
    exception; a call beyond the answers given is an exception).
- Each `notifyClients(clients, "refresh")` that `ProductionCache` issues is
  counted in the field `refreshes`. The broadcast itself is
  `WebSocketClients.NotifyClients`. Which sends fail is a parameter of it.
- Every operation runs sequentially and atomically.

Behaviour of the code that a reader of its comments might not expect:

- `createProduction` throws when the ERP call fails (the XML-RPC call
  rethrows, and its result is cast `as String`), and `syncDb` has no `try`
  around it. A failed create therefore ends the pass: the pending list is
  left as it was, the second query is not made, and `/syncDb` answers
  `false`. `ProductionCache.SyncDb` states this.
- `updateCache` copies the cached record's three sync flags onto a matching
  incoming record. A record admitted locally by `setNext` therefore keeps
  `db_sync = false` even after the ERP query returns it marked as synced;
  the query's `db_sync = true` survives only for records first seen
  through the query. `Scenarios.SubmitThenSync` proves this outcome: the
  pending list empties and the record is still not db-synced.
- The KDoc of `syncDb` promises a Boolean saying whether the cache was
  updated. But `oldCache` and `newCache` are both the live map returned by
  `getCache()`, so `hasCacheChanged` compares the cache with itself, and
  `syncDb` never returns `true`. It returns the last create result, or
  null when no create was issued.
- The doc comments mention `cleanDone()` and the filtering of completed
  items. Neither exists in the code, and neither is modelled.

## Model

| member | source | states |
|---|---|---|
| ProductionCacheLogic.LinkedCache.Put | service/pos_manufacture_queue/src/main/kotlin/com/coffee_service/quadro/org/objects/ProductionCache.kt:184 | assigning an origin's list replaces that list only, leaves every other origin's list as it was, and keeps an existing key in its place in the key order and puts a new key last, as a `LinkedHashMap` does |
| ProductionCacheLogic.FirstUidIndex | service/pos_manufacture_queue/src/main/kotlin/com/coffee_service/quadro/org/objects/ProductionCache.kt:173 | `indexOfFirst`: -1 exactly when no record has the id; otherwise that record has the id and no earlier one does |
| ProductionCacheLogic.WithFlagsOf | service/pos_manufacture_queue/src/main/kotlin/com/coffee_service/quadro/org/objects/ProductionCache.kt:177-179 | the result is the incoming item in every field except `db_sync`, `pos_sync` and `kitchen_sync`, which are the existing record's |
| ProductionCacheLogic.UpsertMatched | service/pos_manufacture_queue/src/main/kotlin/com/coffee_service/quadro/org/objects/ProductionCache.kt:173-180 | a match is overwritten at its own index by the item carrying the old flags; the length and every other record stay |
| ProductionCacheLogic.UpsertUnmatched | service/pos_manufacture_queue/src/main/kotlin/com/coffee_service/quadro/org/objects/ProductionCache.kt:181-183 | an item whose id is not in the list is appended at the end |
| ProductionCacheLogic.UpsertPreservesDistinct | service/pos_manufacture_queue/src/main/kotlin/com/coffee_service/quadro/org/objects/ProductionCache.kt:172-184 | one merge step keeps the ids of an origin's list pairwise distinct |
| ProductionCacheLogic.MergeAllPreservesInvariants | service/pos_manufacture_queue/src/main/kotlin/com/coffee_service/quadro/org/objects/ProductionCache.kt:170-185 | merging a batch keeps the key order consistent and ids distinct per origin, and loses no origin |
| ProductionCacheLogic.MergeAllKeys | service/pos_manufacture_queue/src/main/kotlin/com/coffee_service/quadro/org/objects/ProductionCache.kt:172-184 | the origins after a merge are the old ones plus the origins the items name |
| ProductionCacheLogic.MergeAllOtherOrigins | service/pos_manufacture_queue/src/main/kotlin/com/coffee_service/quadro/org/objects/ProductionCache.kt:172-184 | an origin no incoming item names keeps its list and its presence |
| ProductionCacheLogic.MergeAllKeepsRecord | service/pos_manufacture_queue/src/main/kotlin/com/coffee_service/quadro/org/objects/ProductionCache.kt:173-180 | a cached record keeps its index, its id and its three sync flags through any batch |
| ProductionCacheLogic.MergeAllKeepsOriginsConsistent | service/pos_manufacture_queue/src/main/kotlin/com/coffee_service/quadro/org/objects/ProductionCache.kt:172-184 | if every record sits under its own origin before a merge, it does after |
| ProductionCacheLogic.MergeAllAddsUid | service/pos_manufacture_queue/src/main/kotlin/com/coffee_service/quadro/org/objects/ProductionCache.kt:170-185 | after a merge, every item's id is present under the item's origin |
| ProductionCacheLogic.MarkDbSynced | service/pos_manufacture_queue/src/main/kotlin/com/coffee_service/quadro/org/objects/ProductionCache.kt:81-84 | every queried record gets `db_sync = true` and nothing else about it changes |
| ProductionCacheLogic.MergeSyncedKeepsDbSync | service/pos_manufacture_queue/src/main/kotlin/com/coffee_service/quadro/org/objects/ProductionCache.kt:81-86 | the queried `db_sync = true` survives for an id the origin did not hold yet |
| ProductionCacheLogic.HasCacheChangedIrreflexive | service/pos_manufacture_queue/src/main/kotlin/com/coffee_service/quadro/org/objects/ProductionCache.kt:143-158 | a cache compared with itself never registers as changed |
| ProductionCacheLogic.UnchangedCharacterized | service/pos_manufacture_queue/src/main/kotlin/com/coffee_service/quadro/org/objects/ProductionCache.kt:143-158 | not changed implies: the same origins, the same list lengths, and every old record value-contained in the new list |
| ProductionCacheLogic.UnchangedFromCharacterization | service/pos_manufacture_queue/src/main/kotlin/com/coffee_service/quadro/org/objects/ProductionCache.kt:143-158 | the converse: the same origins, the same list lengths and every old record value-contained in the new list is not changed |
| ProductionCacheLogic.HasCacheChangedIsOneDirectional | service/pos_manufacture_queue/src/main/kotlin/com/coffee_service/quadro/org/objects/ProductionCache.kt:149-154 | the containment is old-in-new only: `[a, a]` to `[a, b]` is unchanged, while the reverse is a change |
| ProductionCacheLogic.FindByUid | service/pos_manufacture_queue/src/main/kotlin/com/coffee_service/quadro/org/objects/ProductionCache.kt:230 | `find`: null exactly when no record has the id; otherwise a record of the list with that id |
| ProductionCacheLogic.LocateInFindsFirst | service/pos_manufacture_queue/src/main/kotlin/com/coffee_service/quadro/org/objects/ProductionCache.kt:229-231 | the location searched for is in the first origin, in map order, holding the id, at the first index with that id; none exactly when no origin holds it |
| ProductionCacheLogic.FindAgreesWithLocate | service/pos_manufacture_queue/src/main/kotlin/com/coffee_service/quadro/org/objects/ProductionCache.kt:230 | searching the flattened values finds exactly the record at that location |
| ProductionCacheLogic.CreateNewProductionItem | service/pos_manufacture_queue/src/main/kotlin/com/coffee_service/quadro/org/objects/ProductionCache.kt:268-285 | id 0, priority "high", timestamp "0", all three flags false; origin, id, state, display name, origin unique name, production delta, components and product copied from the submission |
| ProductionCacheLogic.ComponentQuantitiesKeys | service/pos_manufacture_queue/src/main/kotlin/com/coffee_service/quadro/org/objects/ProductionCache.kt:107 | `associate` has an entry for exactly the component ids present |
| ProductionCacheLogic.ComponentQuantitiesLastWins | service/pos_manufacture_queue/src/main/kotlin/com/coffee_service/quadro/org/objects/ProductionCache.kt:107 | a repeated component id carries the quantity of its last occurrence |
| ProductionCacheLogic.CreateRequestFor | service/pos_manufacture_queue/src/main/kotlin/com/coffee_service/quadro/org/objects/ProductionCache.kt:96-108 | the create request names the submission's origin as `pos_reference` and carries its `custom_uid`, product, state, template, unit, quantity, bill of materials and the component-to-quantity map |
| ProductionCacheLogic.EligibleEntriesMembers | service/pos_manufacture_queue/src/main/kotlin/com/coffee_service/quadro/org/objects/ProductionCache.kt:90-94 | a pending entry is pushed exactly when its id is among the not yet db-synced records of its origin |
| ProductionCacheLogic.EligibleEntriesAppend | service/pos_manufacture_queue/src/main/kotlin/com/coffee_service/quadro/org/objects/ProductionCache.kt:90-113 | the pushed entries of a concatenation are those of each part, in list order |
| ProductionCacheLogic.EligibleEntriesPrefix | service/pos_manufacture_queue/src/main/kotlin/com/coffee_service/quadro/org/objects/ProductionCache.kt:90-113 | the entries pushed by the time the loop reaches any point are a prefix of all entries pushed |
| ProductionCacheLogic.Without | service/pos_manufacture_queue/src/main/kotlin/com/coffee_service/quadro/org/objects/ProductionCache.kt:126-127 | `removeAll` by id set: never more entries than before; its members are stated by WithoutMembers and its order by WithoutAppend |
| ProductionCacheLogic.WithoutMembers | service/pos_manufacture_queue/src/main/kotlin/com/coffee_service/quadro/org/objects/ProductionCache.kt:126-127 | `removeAll` keeps exactly the entries whose id is not in the set, and is the identity when none is |
| ProductionCacheLogic.WithoutAppend | service/pos_manufacture_queue/src/main/kotlin/com/coffee_service/quadro/org/objects/ProductionCache.kt:127 | removal keeps the relative order of the remaining entries |
| ProductionCacheLogic.HasCacheChanged | service/pos_manufacture_queue/src/main/kotlin/com/coffee_service/quadro/org/objects/ProductionCache.kt:143-158 | `hasCacheChanged`: a size difference, or an old origin missing, of another length, or with a record not (by value) in the new list; characterized by UnchangedCharacterized and UnchangedFromCharacterization |
| ProductionCacheLogic.Upsert | service/pos_manufacture_queue/src/main/kotlin/com/coffee_service/quadro/org/objects/ProductionCache.kt:172-184 | one `forEach` step on the item's origin list; what it does is stated by UpsertMatched, UpsertUnmatched, UpsertKeepsRecord and UpsertPreservesDistinct |
| ProductionCacheLogic.MergeItem | service/pos_manufacture_queue/src/main/kotlin/com/coffee_service/quadro/org/objects/ProductionCache.kt:172-184 | one `forEach` step stores the upserted list under the item's origin |
| ProductionCacheLogic.MergeAll | service/pos_manufacture_queue/src/main/kotlin/com/coffee_service/quadro/org/objects/ProductionCache.kt:171-185 | the whole loop, items merged in list order; its properties are the MergeAll lemmas, and MergeInto is proved to compute it |
| ProductionCacheLogic.Flatten | service/pos_manufacture_queue/src/main/kotlin/com/coffee_service/quadro/org/objects/ProductionCache.kt:230 | `values.flatten()`: the origins' lists concatenated in key order |
| ProductionCacheLogic.LocateIn | service/pos_manufacture_queue/src/main/kotlin/com/coffee_service/quadro/org/objects/ProductionCache.kt:229-231 | a location it reports is in range and holds the id; LocateInFindsFirst proves it is the first one and that none is reported only when no origin holds the id |
| ProductionCacheLogic.FindByUidIsFirst | service/pos_manufacture_queue/src/main/kotlin/com/coffee_service/quadro/org/objects/ProductionCache.kt:230 | `find` returns the first record with the id: no earlier record has it |
| ProductionCacheLogic.QueriedRecords | service/pos_manufacture_queue/src/main/kotlin/com/coffee_service/quadro/org/objects/ProductionCache.kt:81-82 | `runCatching { queryProduction() }.getOrDefault(emptyList())`: the returned records, or none when the query threw |
| ProductionCacheLogic.ComponentQuantities | service/pos_manufacture_queue/src/main/kotlin/com/coffee_service/quadro/org/objects/ProductionCache.kt:107 | `associate { it.id to it.qty }`; its keys and last-wins rule are ComponentQuantitiesKeys and ComponentQuantitiesLastWins |
| ProductionCacheLogic.Eligible | service/pos_manufacture_queue/src/main/kotlin/com/coffee_service/quadro/org/objects/ProductionCache.kt:91-93 | the entry's id is among the not yet db-synced records cached under its origin |
| ProductionCacheLogic.EligibleEntries | service/pos_manufacture_queue/src/main/kotlin/com/coffee_service/quadro/org/objects/ProductionCache.kt:90-94 | never more entries than pending; its members are exactly the eligible pending entries (EligibleEntriesMembers), in order (EligibleEntriesAppend) |
| ProductionCacheObject.FirstPass | service/pos_manufacture_queue/src/main/kotlin/com/coffee_service/quadro/org/objects/ProductionCache.kt:81-87 | the cache after the first query's records, marked db-synced, are merged |
| ProductionCacheObject.LastCreateResult | service/pos_manufacture_queue/src/main/kotlin/com/coffee_service/quadro/org/objects/ProductionCache.kt:94-111 | the value `res` holds after the loop: null when no create was issued, else the last create's answer |
| ProductionCacheObject.ProductionCache.GetQueue | service/pos_manufacture_queue/src/main/kotlin/com/coffee_service/quadro/org/objects/ProductionCache.kt:248-250 | `getQueue()`: the live admission queue |
| ProductionCacheObject.ProductionCache.GetCache | service/pos_manufacture_queue/src/main/kotlin/com/coffee_service/quadro/org/objects/ProductionCache.kt:257-259 | `getCache()`: the live cache map itself, key order included |
| ProductionCacheObject.MergeInto | service/pos_manufacture_queue/src/main/kotlin/com/coffee_service/quadro/org/objects/ProductionCache.kt:171-185 | the `forEach` loop of `updateCache`, with its index search, overwrite or append, computes the merge of the batch |
| ProductionCacheObject.IssueCreates | service/pos_manufacture_queue/src/main/kotlin/com/coffee_service/quadro/org/objects/ProductionCache.kt:90-113 | the create loop issues one request per eligible entry in list order, returns the last answer and the pushed ids, and stops at the first create that throws |
| ProductionCacheObject.ProductionCache.constructor | service/pos_manufacture_queue/src/main/kotlin/com/coffee_service/quadro/org/objects/ProductionCache.kt:55-61 | the three containers start empty |
| ProductionCacheObject.ProductionCache.GetProductionItemFromCache | service/pos_manufacture_queue/src/main/kotlin/com/coffee_service/quadro/org/objects/ProductionCache.kt:229-231 | null exactly when no origin holds the id; otherwise a cached record with that id, the one at the first location holding it |
| ProductionCacheObject.ProductionCache.SetNext | service/pos_manufacture_queue/src/main/kotlin/com/coffee_service/quadro/org/objects/ProductionCache.kt:205-227 | `pos_sync` is always set; a duplicate id changes nothing; otherwise the item heads the origin's list, the origin joins the queue only if absent, and one refresh is sent |
| ProductionCacheObject.ProductionCache.GetNext | service/pos_manufacture_queue/src/main/kotlin/com/coffee_service/quadro/org/objects/ProductionCache.kt:240-241 | pops exactly the head origin and returns its list, keeping the cache entry; an empty queue gives null and changes nothing |
| ProductionCacheObject.ProductionCache.UpdateCache | service/pos_manufacture_queue/src/main/kotlin/com/coffee_service/quadro/org/objects/ProductionCache.kt:170-187 | the cache becomes the in-order merge of the batch, and exactly one refresh is sent, even for an empty batch |
| ProductionCacheObject.ProductionCache.SyncDb | service/pos_manufacture_queue/src/main/kotlin/com/coffee_service/quadro/org/objects/ProductionCache.kt:73-134 | completing a pass issues one create per eligible entry, merges both queries, removes exactly the pushed ids and returns the last create result or null; a throwing create ends the pass with the first merge only |
| OrderCacheObject.OrderCache.constructor | service/pos_manufacture_queue/src/main/kotlin/com/coffee_service/quadro/org/objects/OrderCache.kt:14 | the order queue starts empty, with nothing accepted or popped |
| OrderCacheObject.OrderCache.GetNext | service/pos_manufacture_queue/src/main/kotlin/com/coffee_service/quadro/org/objects/OrderCache.kt:16-19 | an empty queue gives null and stays empty; otherwise the head is returned and exactly the tail remains |
| OrderCacheObject.OrderCache.AddLast | service/pos_manufacture_queue/src/main/kotlin/com/coffee_service/quadro/org/objects/OrderCache.kt:21-24 | always answers true, and the order becomes the new tail |
| OrderCacheObject.ArrivalOrder | service/pos_manufacture_queue/src/main/kotlin/com/coffee_service/quadro/org/objects/OrderCache.kt:14-24 | orders leave in arrival order, each once, and a popped order is gone |
| WebSocketClientsObject.WebSocketClients.constructor | service/pos_manufacture_queue/src/main/kotlin/com/coffee_service/quadro/org/objects/WebSocketClientsCache.kt:8-9 | the session set starts empty |
| WebSocketClientsObject.WebSocketClients.Connect | service/pos_manufacture_queue/src/main/kotlin/com/coffee_service/quadro/org/plugins/WebSockets.kt:19 | a new session joins the set once, at the end of its iteration order |
| WebSocketClientsObject.Remove | service/pos_manufacture_queue/src/main/kotlin/com/coffee_service/quadro/org/plugins/WebSockets.kt:29 | `-=` on a linked set: exactly the other sessions remain, and no session appears twice if none did |
| WebSocketClientsObject.RemoveAppend | service/pos_manufacture_queue/src/main/kotlin/com/coffee_service/quadro/org/plugins/WebSockets.kt:29 | removal keeps the order of the remaining sessions, which is the order the broadcast walks |
| WebSocketClientsObject.WebSocketClients.Disconnect | service/pos_manufacture_queue/src/main/kotlin/com/coffee_service/quadro/org/plugins/WebSockets.kt:28-30 | ending a session removes exactly that session and keeps the others in their order |
| WebSocketClientsObject.WebSocketClients.NotifyClients | service/pos_manufacture_queue/src/main/kotlin/com/coffee_service/quadro/org/objects/WebSocketClientsCache.kt:11-25 | every given session gets exactly one "refresh" attempt, in order, whatever `type` and `data` are; a failing send does not stop the rest; the session set is untouched |
| ProductionRoutes.EligibleSurvivesMerge | service/pos_manufacture_queue/src/main/kotlin/com/coffee_service/quadro/org/objects/ProductionCache.kt:171-184 | a pending entry eligible for pushing stays eligible through any merge |
| ProductionRoutes.SubmittedRecordStaysUnsynced | service/pos_manufacture_queue/src/main/kotlin/com/coffee_service/quadro/org/objects/ProductionCache.kt:177-179 | a locally admitted record keeps `db_sync = false` and `pos_sync = true` through any merge, however the ERP reports it |
| ProductionRoutes.MergeOwnRecordIsNoop | service/pos_manufacture_queue/src/main/kotlin/com/coffee_service/quadro/org/objects/ProductionCache.kt:173-184 | merging a record back at its own first index under its own origin leaves the cache as it was |
| ProductionRoutes.ConfirmMerge | service/pos_manufacture_queue/src/main/kotlin/com/coffee_service/quadro/org/routes/ProductionRoutes.kt:77-81 | confirming keeps the invariant; the confirmed record keeps its place, id and flags; with consistent origins the merge adds nothing to the in-place write |
| ProductionRoutes.SetNextProduction | service/pos_manufacture_queue/src/main/kotlin/com/coffee_service/quadro/org/routes/ProductionRoutes.kt:103-107 | the body always joins the pending list, even as a duplicate; the response is the new record with `pos_sync` set; a duplicate id leaves cache, queue and refresh count alone; a fresh id heads its origin's list, is left eligible for the next sync, and sends one refresh |
| ProductionRoutes.ConfirmProduction | service/pos_manufacture_queue/src/main/kotlin/com/coffee_service/quadro/org/routes/ProductionRoutes.kt:76-85 | an unknown id answers not found and changes nothing; otherwise the record found gets state "progress" and keeps its place, id and flags, and one refresh is sent |
| ProductionRoutes.PopProductionQueue | service/pos_manufacture_queue/src/main/kotlin/com/coffee_service/quadro/org/routes/ProductionRoutes.kt:52-54 | an empty queue answers an empty list; otherwise the popped origin's full list; the cache, the pending list and the refresh count are unchanged |
| ProductionRoutes.SyncResponseText | service/pos_manufacture_queue/src/main/kotlin/com/coffee_service/quadro/org/routes/ProductionRoutes.kt:41-42 | an exception answers "false"; otherwise "true", the create's string, or "null" |
| ProductionRoutes.SyncDbRoute | service/pos_manufacture_queue/src/main/kotlin/com/coffee_service/quadro/org/routes/ProductionRoutes.kt:41-42 | a pass with a failing create answers "false" and has sent the create requests of the first eligible entries, the last of which threw; a completed pass answers the last create's text or "null", never the pass's `true`; the queue is untouched, a failing pass leaves only the first merge (one refresh) and the pending list as it was, a completed one both merges (two refreshes) and the pending list without the pushed ids |
| ProductionRoutes.ScheduledSyncTick | service/pos_manufacture_queue/src/main/kotlin/com/coffee_service/quadro/org/plugins/TaskScheduler.kt:16-21 | clients are notified exactly when the pass returned non-null, i.e. when it completed and its last create answered; the tick leaves the same state as a `/syncDb` pass |
| Scenarios.SubmitThenSync | service/pos_manufacture_queue/src/main/kotlin/com/coffee_service/quadro/org/objects/ProductionCache.kt:73-134 | submit then sync with the ERP returning the record: the create is issued, the pending list empties, the record stays not db-synced |
| Scenarios.SyncSubmission | service/pos_manufacture_queue/src/main/kotlin/com/coffee_service/quadro/org/objects/ProductionCache.kt:73-134 | the sync half of SubmitThenSync: the pass answers the create's string, empties the pending list, leaves the queue, and the record stays not db-synced with `pos_sync` set |
| Scenarios.SubmissionIsPushed | service/pos_manufacture_queue/src/main/kotlin/com/coffee_service/quadro/org/objects/ProductionCache.kt:81-127 | a fresh submission whose record the ERP returns is pushed alone, its create answer becomes the result, the pending list empties, and the record stays not db-synced |
| Scenarios.TwoOriginsPopInOrder | service/pos_manufacture_queue/src/main/kotlin/com/coffee_service/quadro/org/routes/ProductionRoutes.kt:52-54 | two origins are popped in submission order, and the popped origin stays cached |
| Scenarios.BroadcastWithOneFailure | service/pos_manufacture_queue/src/main/kotlin/com/coffee_service/quadro/org/objects/WebSocketClientsCache.kt:18-24 | three sessions, one failing: all three are attempted, two are delivered, none is removed |

## Left out

- rpc/RpcApi.kt, the XML-RPC client with JSON decoding and `LocalDateTime`: network and foreign code. Its query and create calls are inputs to the sync pass, and the `Production` ERP record type is not part of this model.
- `markAsDone`, `queryProducts` and the `/setDoneProduction` and `/getProducts` handlers: these are remote calls only.
- The placeholder handlers (`/MarkSingleScrap`, `/UnlinkAll` and the others answering "OKEI"), and `/getProductionQueue` and `/getProductionCache`: only the read functions `GetQueue` and `GetCache` behind them are modelled.
- plugins/TaskScheduler.kt: the timer, the infinite loop and overlapping ticks are concurrency. Only one tick is modelled (`ScheduledSyncTick`).
- plugins/WebSockets.kt, Security.kt, HTTP.kt, SSL.kt, Application.kt, routes/HealthCheck.kt: transport, authentication and bootstrap. Only the add and remove of a session are modelled. They become `Connect` and `Disconnect`.
- routes/OrderRoutes.kt, a thin HTTP wrapper over `OrderCache`, and the web front end under web/: both are outside the core.
- Concurrency: the shared singletons and the synchronized session set. Every operation is sequential and atomic here.
- Request decoding, HTTP status codes and JSON rendering of responses: framework code.
- The `draftPackLotLines` field of an order line: it is always null, so it is dropped.
- The integers in a create request are sent as decimal strings; the model keeps them as integers.
- ProductionRoutes.ConfirmProduction: the Kotlin record is one shared object. `updateCache` writes the flags of the record it matches onto that object, which is also the object returned by the lookup. When a record is stored under a key other than its own origin, that write also lands in the copy under the lookup's key. This aliasing is not modelled. With every record under its own origin, which `setNext` and `updateCache` preserve when called with matching origins, the write changes nothing.
- WebSocketClientsObject.WebSocketClients.NotifyClients: the printed stack trace of a failed send is not modelled. Whether a send fails is a parameter, and the frame is not actually transmitted.
