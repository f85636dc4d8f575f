# Verified model of the enterprise CRM portal

A Dafny model of the stateful core of the CRM service, with proofs of what it keeps in every
run. The shared SQL database is modelled as maps of rows with its UNIQUE and FOREIGN KEY
constraints; savepoints and rollbacks are snapshots of the tables, which identity columns and
in-process caches do not take part in. Code that changes state step by step is written as
classes and loops whose contracts equate each step with a function of the state; the theorems
are about those functions and about runs of them.

| file | what it models |
|---|---|
| Wrappers.dfy | the option type |
| Database.dfy | tables, constraints, statements |
| Normalization.dfy | reading one external order: fallback chains, totals, the mismatch alarm |
| OrderSync.dfy, SyncSession.dfy | the order-sync engine as a function, and as code refining it |
| SyncEffects.dfy, ProductLookup.dfy | what one order and one batch do; audit and counter conservation |
| SyncConvergence.dfy, SyncRepeat.dfy | the same batch again: exact counters, stable tables |
| SyncCache.dfy, SyncWitnesses.dfy | the product cache against the table, and the cases where the two part |
| Catalog.dfy, CatalogWrites.dfy, CatalogProofs.dfy, CatalogHandlers.dfy | product, shop, order and sync requests as interleaved transactions, and the handlers |
| SessionCache.dfy, SessionGate.dfy, SignIn.dfy | session lookups with a per-replica cache, their admission control, and both together |
| LoginLimiter.dfy, SignedCookie.dfy | the sliding-window login limiter, and the signed sign-on cookie |
| CustomerCache.dfy | the read-through customer cache |
| ChaosLifecycle.dfy, ChaosOverlap.dfy | applying, clearing and reading chaos scenarios, one after the other and overlapping |
| Bootstrap.dfy | schema upgrade, bootstrap administrator, demo shops |
| SqlId.dfy, InFlightGauge.dfy | the SQL_ID encoder, and the in-flight gauge |

`dafny verify dfyconfig.toml` checks the whole project.

Where the code and its own documentation disagree the model follows the code:

- The comment at server/middleware/session_gate.py:26-32 bounds the lookups in flight, running or
  queued, by the semaphore. A lookup that times out keeps its thread after its permit has gone back,
  so the bound is three times the threads (`SessionGate.LookupsBounded`), and it is reached
  (`SessionGate.BoundReached`).
- `find_customer_by_email` documents None for a missing customer (server/modules/customer_enrichment.py:66)
  and returns an empty dictionary exactly when a live cached miss is found
  (`CustomerCache.AbsentCustomerExact`, `CustomerCache.AbsentCustomerTwice`).
- `create_order` documents that a retry does not create a duplicate (server/modules/orders.py:199-206).
  It does not, but the retry ends in the database's refusal, not in the first answer
  (`CatalogProofs.SerialNeverCrashes`, `CatalogProofs.RepeatedPost`).
- An order sync is documented as an upsert. Sent again, an order without e-mail, or with a generated
  product that its reference does not name, is refused (`SyncConvergence.SecondRunExact` gives the exact
  condition; the module SyncWitnesses shows each excluded case).

Properties that do not hold as one might state them, with the exact condition or bound that does:

- After a run without failures, the same orders sent again are all accepted if and only if every order
  has an e-mail and every item is in the product lookup as it is after the first run
  (`SyncConvergence.SecondRunExact`). The second run then leaves the tables as they were if and only if
  the last order of each reference has, after the first run, the lines which that lookup gives for its
  items (`SyncRepeat.AcceptedRepeatStable`, both together `SyncRepeat.RepeatExact`); a generated product
  with the name of a stored one is a case where it does not (`SyncWitnesses.GeneratedNameShadows`).
- The product cache of a run names only live products between the orders and at the end if and only if
  no rolled-back order had generated a product (`SyncCache.LiveExact`). For the stronger statement that
  the run does what fresh lookups would do, a sufficient condition is proved, not an exact one: in
  addition no item is named by the id of a product created in the run (`SyncCache.CachedRunIsFresh`);
  `SyncWitnesses.RolledBackProductLingers` and `SyncWitnesses.NewIdNotSeen` show what goes wrong
  without either condition.
- The login limit bounds failures per list, that is, of the logins of one address begun between two
  successes (`LoginLimiter.WindowsLimited`). Logins begun before a success and failing after it come on
  top (`LoginLimiter.SinceSuccessLimited`). Both bounds are reached, for every limit and every number of
  logins at a time (`LoginLimiter.LimitReached`, `LoginLimiter.StraysReached`).
- There is at most one chaos row if and only if there are no two committed applies after whose commit no
  transaction began that has committed; two such applies overlapped (`ChaosOverlap.OneRowExact`). After
  an overlap the replaced scenario can come back (`ChaosOverlap.ReplacedScenarioReturns`).
- A customer answer is about the e-mail asked for as long as the run asks for no other spelling with the
  same cache key (`CustomerCache.AgreesWithDatabase`). For any two spellings that the database tells
  apart some run breaks it (`CustomerCache.SpellingsDisagree`).
- Customer answers after an invalidation are fresh in every continuation if and only if no lookup under
  the key holds an outdated answer at that moment (`CustomerCache.InvalidationExact`).
- Archiving a product writes one column of the row as it is by then, so a change that committed after the
  archive read the row is kept, and the row ends inactive if and only if it was active when read or the
  change made it inactive: for a product that was inactive already the archive writes nothing, and a change
  that activates it meanwhile stays (`CatalogWrites.UpdatedThenArchived`).
- The gauge is conserved in total, and per label exactly when begun and finished labels agree
  (`InFlightGauge.QuietGauge`).

Parameters: the message authentication code, case folding, number and date parsing, the digest
behind generated SKUs, the clock, and the answers of the network, the cache server and the
session store.

## Model

| member | source | states |
|---|---|---|
| Normalization.ReadLines | server/order_sync.py:229-242 | the line loop reads every line in order and accumulates exactly the sum of quantity times price, or stops at the first quantity that is no integer |
| Normalization.NormalizeExternalOrder | server/order_sync.py:211-295 | reading one external order is the function that the money and batch theorems are about, alarm included |
| Normalization.LinesPreserved | server/order_sync.py:231-242 | one normalised line per raw line, each with the quantity, price, product reference and name of its own raw line, taken from the first alternative field that says anything |
| Normalization.FieldsRead | server/order_sync.py:227-293 | id, status, backlog mark, address, notes and payload each come from the first alternative field that says anything; the backlog mark is set for exactly five statuses |
| Normalization.BuyerRead | server/order_sync.py:214-226 | the e-mail is the first candidate, stripped and in lower case; the name is the first of five candidates and never empty |
| Normalization.CreationRead | server/order_sync.py:298-306 | the creation time is the first candidate if it parses, else the moment of reading |
| Normalization.MoneyRead | server/order_sync.py:244-258 | which fields discount, shipping and declared total come from; a shipping cost of zero or less gives way to two other fields |
| Normalization.LinesRead | server/order_sync.py:213-242 | the lines are those of the first of two names that has any, one for one |
| Normalization.ReadableExact | server/order_sync.py:211-256 | an order can be read if and only if its e-mail is text, its shipping cost is a number and every quantity converts |
| Normalization.NormalizeAllExact | server/order_sync.py:78-79 | a batch is read order by order, each at its own moment; it is unreadable only for one of its orders |
| Normalization.Conversions | server/order_sync.py:28-34 | a number converts by dropping its fraction; the lenient conversion is the strict one with zero for what that refuses |
| Normalization.RoundedToNearest | server/order_sync.py:257 | rounding gives a whole number of cents, none nearer, of two equally near the even one |
| Normalization.LineSumAdds | server/order_sync.py:234 | a line comes to quantity times price, two lists of lines to both together |
| Normalization.UndeclaredTotal | server/order_sync.py:257-259 | an order without total and amount is read at a total within half a cent of its line sum less the discount, if positive, plus the shipping, and is never flagged |
| Normalization.AlarmIsExact | server/order_sync.py:257-279 | the mismatch alarm sounds only above half a cent of excess over the exact amount, and always above one and a half cents |
| Normalization.ReadTwice | server/order_sync.py:211-306 | reading the same orders at another moment succeeds for the same batches and differs only in the moments of reading |
| Database.DeleteLinesEffect | server/order_sync.py:373 | deleting the lines of an order empties it and leaves the lines of every other order alone, and all constraints hold |
| Database.TotalAdds | server/modules/orders.py:253 | a stored line comes to quantity times price, two lists of lines to both together |
| Database.InsertItemEffect | server/order_sync.py:382-390 | a written item becomes the last line of its order and of no other |
| Database.InsertOrder | server/database.py:183-205 | an order row is refused exactly for a missing customer or a source reference in use; else it is added under a new key |
| Database.InsertProduct | server/database.py:167-180 | a product row is refused exactly for a SKU in use or a missing shop; else it is added under a new key |
| Database.InsertCustomer | server/database.py:130-143 | a customer row is refused exactly for an e-mail in use; else it is added under a new key |
| OrderSync.ResolveCustomer | server/order_sync.py:309-325 | a non-empty e-mail finds its customer or adds one; an order without e-mail is refused exactly when its fallback address is in use |
| OrderSync.UpsertOrder | server/order_sync.py:328-369 | an update exactly when the reference is in use, then on the row that carries it; one order row changes |
| OrderSync.ResolveProduct | server/order_sync.py:404-426 | a cached reference gives its product; otherwise a product is generated, refused exactly for a SKU in use, and remembered under SKU and name only |
| SyncSession.SyncSession.ProductLookup | server/order_sync.py:393-401 | the lookup loop builds the lookup in id order, later rows winning |
| SyncSession.SyncSession.ResolveCustomer | server/order_sync.py:309-325 | the statements of customer resolution carry out its specification |
| SyncSession.SyncSession.UpsertOrder | server/order_sync.py:328-369 | insert, or overwrite field by field, carries out the specified upsert: the stored row holds, column by column, what the external order says, the run and the customer; an overwritten row keeps its creation time |
| SyncSession.SyncSession.ResolveProduct | server/order_sync.py:404-426 | lookup, generation and the two cache writes carry out the specification, cache included |
| SyncSession.SyncSession.ReplaceOrderItems | server/order_sync.py:372-390 | the delete and the item loop carry out the specified replacement of the lines |
| SyncSession.SyncSession.SkipOrder | server/order_sync.py:80-91 | an order without id: one failure counted, one audit row, nothing else |
| SyncSession.SyncSession.KeepOrder | server/order_sync.py:98-116 | the end of the savepoint: audit row, counter and result entry of an accepted order |
| SyncSession.SyncSession.DropOrder | server/order_sync.py:117-127 | the rollback: tables as at the savepoint, one failure and one audit row, cache and identity values kept |
| SyncSession.SyncSession.ProcessOrder | server/order_sync.py:79-127 | one turn of the batch loop: the savepoint takes the tables back, not the cache and not the identity values |
| SyncSession.SyncSession.ProcessOrders | server/order_sync.py:76-129 | the batch loop is the fold over the readable orders, and stops at the first that cannot be read |
| SyncSession.SyncSession.SyncExternalOrders | server/order_sync.py:41-143 | the whole endpoint: skipped, failed fetch, unreadable batch (nothing committed) or the committed run |
| SyncEffects.AppliedEffect | server/order_sync.py:309-390 | an accepted order leaves its row with, column by column, the total, status, texts, reference, payload and stamps of the external order, for the customer with its e-mail, and its lines, in order and on live products; at most that customer is added, with the columns named; no other order and no other line changes |
| SyncEffects.TurnReports | server/order_sync.py:94-116 | an accepted order adds one entry to the result, which names the stored row and shows the reference, status, backlog mark and total of the external order; it counts as created or updated by whether its reference was in use |
| SyncEffects.UndeclaredOrderStored | server/order_sync.py:211-342 | from payload to row: an accepted order without total and amount is stored and reported within half a cent of what its stored lines come to less the discount, if positive, plus the shipping |
| SyncEffects.LinesCost | server/order_sync.py:230-242 | the stored lines come to the line sum of the order read |
| SyncEffects.AddItemExact | server/order_sync.py:404-426 | an item with a known reference names that product and adds none; any other adds one product with the columns named, found from then on under SKU and name |
| SyncEffects.RefExact | server/order_sync.py:405 | an item is looked up under its reference if that says anything, else under its name, in lower case |
| SyncEffects.AddItemsEffect | server/order_sync.py:375-390 | the item loop appends one line per item with its quantity and price |
| SyncEffects.FailureIsolated | server/order_sync.py:93-127 | a failing order adds one audit row and changes nothing else in the tables |
| SyncEffects.BatchLedger | server/order_sync.py:74-129 | one audit row per order in batch order; created + updated + failed is the batch; the result list has one entry per success, in batch order, that shows what the order says; the audit kinds match the counters |
| SyncEffects.RunOnlyAdds | server/order_sync.py:76-129 | a run removes no customer, product or order, touches no shop, and keeps each order under its reference with its creation time |
| ProductLookup.LookupFinds | server/order_sync.py:397-400 | every stored product is found under its SKU, its name and its id |
| ProductLookup.LookupExact | server/order_sync.py:393-401 | the lookup has exactly the keys of the stored products, and of the products that share a key it names the last |
| ProductLookup.LookupAfterInsert | server/order_sync.py:393-401 | inserting a product adds exactly its three keys to a fresh lookup |
| SyncConvergence.SentAgain | server/order_sync.py:309-426 | sending an accepted order again, exactly: refused for its e-mail, refused for a SKU, or an update |
| SyncConvergence.RunSettles | server/order_sync.py:76-129 | a run without a failure leaves every reference and address of its batch in use and every item resolvable |
| SyncConvergence.SecondRunExact | server/order_sync.py:41-143 | after a run without failures a second run creates nothing; it refuses nothing if and only if every order has an e-mail and every item is in the lookup |
| SyncRepeat.LastWriterWins | server/order_sync.py:328-390 | the last order of a batch with a given reference decides the row and the lines stored under it |
| SyncRepeat.RunSpares | server/order_sync.py:328-390 | an order that the batch does not mention keeps its row and its lines |
| SyncRepeat.NothingAdded | server/order_sync.py:309-369 | when all references and e-mails are in use a run only updates |
| SyncRepeat.SyncTwice | server/order_sync.py:41-143 | the same batch twice, every order with id and e-mail and every item in the initial lookup: the second run only updates, and customers, products, orders and lines stay, up to run stamps and item keys |
| SyncRepeat.RunLeavesRows | server/order_sync.py:328-369 | after a run that refused nothing, generated products or not, the last order with a reference decides the row stored under it |
| SyncRepeat.AcceptedRepeatStable | server/order_sync.py:41-143 | when the first run refused nothing and the second accepts every order, customers, products, orders and lines stay if and only if the last order of each reference has the lines that the lookup after the first run gives for it |
| SyncRepeat.RepeatExact | server/order_sync.py:41-143 | after a run without failures the same orders are all accepted and change nothing if and only if every order has an e-mail, every item is in the lookup, and the last order of each reference has the lines the lookup gives |
| SyncRepeat.StableFromSecondRun | server/order_sync.py:41-143 | whatever the first run generated, a third run leaves the tables as the second left them if neither of the first two refused an order; each run reads the orders at its own moments |
| SyncCache.CachedRunIsFresh | server/order_sync.py:372-426 | a run that rolled back no generated product and refers to none by its new id equals the fold that reads the lookup before each order |
| SyncCache.CacheFollowsTable | server/order_sync.py:372-426 | at the end of a run that rolled back no generated product the cache answers like a fresh lookup, but for the ids of the products created in the run |
| SyncCache.LiveExact | server/order_sync.py:93-127 | for every batch and live cache: the cache names live products only at every order boundary if and only if no order that was rolled back had generated a product |
| SyncCache.KnownRunIsClean | server/order_sync.py:372-426 | both conditions hold when every item is in the initial lookup, even if orders fail |
| SyncCache.OrderFollows | server/order_sync.py:404-426 | an accepted order keeps the cache in step with the product table |
| SyncWitnesses.EmaillessOrderFails | server/order_sync.py:312-324 | an order without e-mail is created once and refused when sent again |
| SyncWitnesses.UnknownItemSentAgain | server/order_sync.py:405-426 | an order with a generated product is accepted again if and only if its item is referred to by name, SKU or id of that product |
| SyncWitnesses.GeneratedNameShadows | server/order_sync.py:393-426 | a generated product with the name of a stored one takes over the lines of another order at the next sync |
| SyncWitnesses.RolledBackProductLingers | server/order_sync.py:94-126 | after a rollback the cache names a product that is gone, and an order is refused that a fresh lookup would accept |
| SyncWitnesses.NewIdNotSeen | server/order_sync.py:405-425 | an item that names by its id the product generated one order before gets another product, where a fresh lookup would have found it |
| SyncWitnesses.VanishedProductRefused | server/order_sync.py:382-390 | the foreign key refuses an item whose cached product is gone |
| Catalog.Write | server/database.py:104-119 | whatever a request read before, its writes leave all constraints in force, and a rollback leaves the tables unchanged |
| CatalogWrites.EditProductExact | server/modules/products.py:202-246 | however long after its reads: refused exactly for a row gone, a new SKU in use or a new shop missing; else a column that the request changed takes its value, any other keeps what is stored by then, and no other row changes |
| CatalogWrites.EditShopExact | server/modules/shops.py:179-209 | the same for a shop and its slug |
| CatalogWrites.EditStatusExact | server/modules/orders.py:337-341 | a status change writes at most two columns of the order as it is stored by then |
| CatalogWrites.RemoveShopExact | server/modules/shops.py:219-232 | a shop that is removed is taken off exactly the products that have it by then; nothing else changes |
| CatalogWrites.LateArchive | server/modules/products.py:297-302 | an archive that writes late changes one column of the row it finds, and only if the product was active when read |
| CatalogWrites.UpdatedThenArchived | server/modules/products.py:202-302 | a change that commits between the reads and the write of an archive is kept: the row has the form, and is inactive if it was active when read or the form says so |
| Catalog.AlwaysSound | server/database.py:104-216 | in every state of every interleaving of product, shop, order and sync transactions, syncs interrupted between any two orders, whatever each request has read, all unique and foreign key constraints hold |
| Catalog.UninterruptedTurn | server/order_sync.py:76-129 | processing one order of a sync and then the rest is the sync in one go: same tables, same keys |
| CatalogProofs.UsedProductStays | server/modules/products.py:284-330 | a product with an order item is never removed, and a product is removed only by a deletion that planned it |
| CatalogProofs.UsedProductAlwaysThere | server/modules/products.py:284-330 | over a whole run a product that is named by an order item throughout is there at the end |
| CatalogProofs.SameSkuRace | server/modules/products.py:168-180 | of two creations that both found a SKU free the second is rolled back |
| CatalogProofs.AssignedMeanwhile | server/modules/shops.py:219-232 | a product assigned to a shop behind the back of its deletion survives without a shop |
| CatalogProofs.OrderedMeanwhile | server/modules/products.py:297-321 | a deletion overtaken by an order for the product is rolled back, where in turn it would have archived |
| CatalogProofs.PricedLinesExact | server/modules/orders.py:238-249 | an order request is refused for a quantity exactly when one is not positive |
| CatalogProofs.AddedOrder | server/modules/orders.py:283-308 | a stored order is its row and exactly its lines in order; no other order row and no other line changes |
| CatalogProofs.OrderTotal | server/modules/orders.py:213-308 | the stored total is the sum over the stored lines; item by item a known product is stored under its key and charged at the catalogue price that was read, any other item at its own price; a lone item counts once if no quantity is given; the other columns come from the request, column by column; other orders untouched |
| CatalogProofs.CreateOrderExact | server/modules/orders.py:213-308 | posting an order, exactly: unknown customer, quantity not positive, source reference in use, or stored |
| CatalogProofs.SerialNeverCrashes | server/database.py:104-119 | served in turn no request is rolled back, except an order whose source reference is in use |
| CatalogProofs.ServedSync | server/order_sync.py:76-129 | a sync that is served at once is the run over a fresh lookup, and replies with its result |
| CatalogProofs.CreateProductExact | server/modules/products.py:161-199 | creating a product: both refusals, and the added row, column by column |
| CatalogProofs.UpdateProductExact | server/modules/products.py:202-246 | changing a product: the three refusals, and the one changed row, column by column |
| CatalogProofs.DeleteProductExact | server/modules/products.py:284-337 | deleting a product: unknown, archived if and only if it has order items, else removed; nothing else changes |
| CatalogProofs.CreateShopExact | server/modules/shops.py:153-176 | creating a shop: refused exactly for a slug in use, else added with the values of the form and empty, active contact columns |
| CatalogProofs.UpdateShopExact | server/modules/shops.py:179-209 | changing a shop: its row takes the values of the form, contact columns kept, unless another shop has the slug |
| CatalogProofs.DeleteShopExact | server/modules/shops.py:212-242 | deleting a shop: refused if and only if a product is assigned to it |
| CatalogProofs.SetStatusExact | server/modules/orders.py:325-343 | setting a status changes one order: the status, and the backlog mark, set for exactly three statuses |
| CatalogProofs.OneOrderPerReference | server/database.py:185-187 | in every state of every run at most one order per source reference |
| CatalogProofs.OrderKeepsReference | server/database.py:183-205 | over any stretch of any interleaving an order stays, and stays under its source reference |
| CatalogProofs.PostedStays | server/modules/orders.py:273-308 | from its commit on the order of a request is there under its key and its reference, whatever else runs |
| CatalogProofs.RepeatedPost | server/modules/orders.py:273-308 | a request with the reference of one that was stored leaves the tables unchanged at any later point of any interleaving, whatever else it says |
| CatalogProofs.PullAfterPush | server/order_sync.py:328-369 | a sync that pulls an order pushed under the name of its source, at any later point and anywhere in its batch, updates the pushed row and adds none |
| CatalogHandlers.Handlers.CreateProduct | server/modules/products.py:161-199 | the handler carries out the specified transaction |
| CatalogHandlers.Handlers.UpdateProduct | server/modules/products.py:202-246 | the handler, field by field, carries out the specified transaction |
| CatalogHandlers.Handlers.DeleteProduct | server/modules/products.py:284-337 | the handler carries out the specified transaction |
| CatalogHandlers.Handlers.CreateShop | server/modules/shops.py:153-176 | the handler carries out the specified transaction |
| CatalogHandlers.Handlers.UpdateShop | server/modules/shops.py:179-209 | the handler, field by field, carries out the specified transaction |
| CatalogHandlers.Handlers.DeleteShop | server/modules/shops.py:212-242 | the handler carries out the specified transaction |
| CatalogHandlers.Handlers.PriceLines | server/modules/orders.py:236-254 | the item loop prices the lines and accumulates their total, or stops at a quantity that is not positive |
| CatalogHandlers.Handlers.CreateOrder | server/modules/orders.py:213-308 | the handler, with its two loops and its rollback, carries out the specified transaction |
| CatalogHandlers.Handlers.UpdateOrderStatus | server/modules/orders.py:325-343 | the handler carries out the specified transaction |
| SessionCache.SessionLookup.GetCurrentUser | server/modules/auth.py:231-307 | the sequential lookup carries out the specification: cache hit, row, no row, store error |
| SessionCache.NoSessionOnlyByEvidence | server/modules/auth.py:231-307 | nobody signed in only without a session id or after a read that found no row, which is then dropped; signed in by an entry younger than 30 s, or else by the row read, which is then kept; a store error leaves the cache unchanged; other sessions are not touched |
| SessionCache.StepsAreLookUp | server/modules/auth.py:231-307 | the steps of the interleaving model, undisturbed, are the sequential lookup |
| SessionCache.BoundedStaleness | server/modules/auth.py:197-209 | in every interleaving of replicas, lookups, logins and logouts: the fields of the row, read less than 30 s plus that lookup's read-to-store delay before, and not after the logout |
| SessionCache.LogoutTakesEffect | server/modules/auth.py:197-209 | no replica accepts a session from its logout + 30 s + the longest read-to-store delay on |
| SessionCache.DelayIsNeeded | server/modules/auth.py:244-256 | the delay cannot be left out: for any delay under 30 s some run accepts a session 30 s after its logout |
| SessionGate.Gate.Arrival | server/middleware/session_gate.py:51-65 | a public path passes at once, any other waits for a permit; no answer before that |
| SessionGate.Gate.Acquire | server/middleware/session_gate.py:77-80 | a permit is taken and the lookup queued, or the request is turned away |
| SessionGate.Gate.TakeNext | server/middleware/session_gate.py:21-24 | a thread takes the first queued lookup, skipping cancelled ones, never more at once than there are threads |
| SessionGate.Gate.Complete | server/middleware/session_gate.py:91-94 | a finished lookup frees its thread; its result counts only while the request waits |
| SessionGate.Gate.Continue | server/middleware/session_gate.py:95-111 | whatever the outcome the permit goes back once, and the answer is the user, the login page, 401 or one of two 503s by what the lookup found |
| SessionGate.PermitsConserved | server/middleware/session_gate.py:33-100 | free permits + holders = twice the threads in every reachable state; each admitted request has released once if it waits no longer, and never else |
| SessionGate.PermitsAccountedFor | server/middleware/session_gate.py:78-100 | in every reachable state each held permit stands for one lookup: queued, running, or finished and not picked up |
| SessionGate.LookupsBounded | server/middleware/session_gate.py:21-33 | running lookups at most the threads; running or queued at most 2W plus the timed-out ones still running, so 3W |
| SessionGate.BoundWithoutTimeouts | server/middleware/session_gate.py:26-33 | the documented 2W holds as long as no request gives up |
| SessionGate.BoundReached | server/middleware/session_gate.py:82-100 | 3W is reached for every number of threads |
| SessionGate.PassedUnseenIffPublic | server/middleware/session_gate.py:53-111 | in every run, from its first arrival on, a request is passed without a lookup if and only if its path is public, and a public one never takes a permit |
| SessionGate.AnsweredByOwnLookup | server/middleware/session_gate.py:82-111 | a request that waits when its lookup ends goes on with what its own lookup found, case by case, and gives its permit back |
| SessionGate.AnsweredForGood | server/middleware/session_gate.py:67-111 | no later event changes the answer of a request |
| SessionGate.FirstComeFirstServed | server/middleware/session_gate.py:21-24 | lookups leave the queue in the order in which their requests got their permits |
| SessionGate.NoForcedLogout | server/middleware/session_gate.py:95-111 | a 401 (API calls) or a redirect to the login page (others) only if the request's own lookup had no session id or the store had no row |
| SessionGate.LetInByOwnLookup | server/middleware/session_gate.py:82-104 | a request goes on as a user only if its own lookup found that user, in a young cache entry or in the store |
| SessionGate.TryAgainHasReason | server/middleware/session_gate.py:67-98 | each 503 has its reason: no permit, too late, or a store error of the request's own lookup |
| SignIn.LetInLately | server/middleware/session_gate.py:82-104 | gate and caches together: a request is handed on as a user only if its own lookup, on its replica, found that user under the session id that the request carries, in a row read while the session lived, less than 30 s plus the entry's read-to-store delay before the lookup ended |
| SignIn.PassedUnseenIffPublic | server/middleware/session_gate.py:53-104 | gate and caches together: passed without a lookup if and only if the path is public; any other that is passed is passed as a user found under the session id it arrived with, in a session that lived lately |
| SignIn.NotLetInAfterLogout | server/modules/auth.py:231-307 | so nobody is let in with a session id whose session ended 30 s plus that delay, or more, before the lookup ended |
| SignIn.RefusedOnlyWithoutSession | server/middleware/session_gate.py:95-111 | a 401 or a redirect to the login page only if the request carries no session id, or one whose session did not live when the request's own lookup asked the store |
| LoginLimiter.AttemptList.Prune | server/modules/auth.py:58 | the pruning loop keeps exactly the entries of the last 300 s, in place |
| LoginLimiter.Limiter.BeginLogin | server/modules/auth.py:56-75 | the first part of a login: shared list found or created, pruned in place, refused at the limit |
| LoginLimiter.Limiter.RecordFailure | server/modules/auth.py:91-102 | a failure goes to the list object the login was given, also when the dictionary has dropped it |
| LoginLimiter.Limiter.ForgetFailures | server/modules/auth.py:124 | a success makes the dictionary forget the address |
| LoginLimiter.AdmittedExact | server/modules/auth.py:56-75 | at any point of any run a login is let in if and only if fewer than the limit of failures are recorded for its address in the last 300 s |
| LoginLimiter.WindowsLimited | server/modules/auth.py:56-102 | for an address with at most k logins under way, whatever the others do, every 300 s window holds at most limit - 1 + k failures of its logins begun between two successes |
| LoginLimiter.SequentialLimit | server/modules/auth.py:56-124 | for an address that logs in one at a time the bound is the limit, and no failure since its last success is missing |
| LoginLimiter.SinceSuccessLimited | server/modules/auth.py:56-124 | counting also the failures of logins begun before the last success, at most k - 1, the bound is limit - 1 + k + (k - 1) |
| LoginLimiter.LimitReached | server/modules/auth.py:56-102 | limit - 1 + k is reached for every limit and every k |
| LoginLimiter.StraysReached | server/modules/auth.py:56-124 | limit - 1 + k + (k - 1) is reached for every limit and every k |
| SignedCookie.VerifyIffSigned | server/modules/auth.py:322-336 | checking accepts exactly what signing produces, dots in the value or not |
| SignedCookie.SplitRecovers | server/modules/auth.py:535-545 | the bounded split recovers the three parts if and only if state and verifier lack the separator; the nonce may hold it |
| SignedCookie.CookieRoundTrip | server/modules/auth.py:490-549 | the callback recovers verifier and nonce for the packed state and refuses any other state |
| SignedCookie.OnlyPackedCookies | server/modules/auth.py:533-549 | the callback goes on with a cookie if and only if it was packed from that state, verifier and nonce |
| SignedCookie.CallbackExact | server/modules/auth.py:322-549 | what the callback answers to every cookie: missing, unsigned or forged is an invalid state (a forged signature that is not ASCII is a failure); signed but not three parts is an invalid state; of three parts the first must be the presented state |
| SignedCookie.UnreservedRoundTrip | server/modules/auth.py:490-549 | the round trip holds for every verifier of the characters in section 4.1 of RFC 7636 |
| CustomerCache.CustomerEnrichment.FindCustomerByEmail | server/modules/customer_enrichment.py:65-93 | the read-through lookup carries out the specification, with an absent, unreachable or garbled cache |
| CustomerCache.CustomerEnrichment.InvalidateCustomerCache | server/modules/customer_enrichment.py:96-106 | invalidation removes the entry under the folded key |
| CustomerCache.AnsweredBy | server/modules/customer_enrichment.py:65-93 | a lookup is answered by a readable entry younger than 300 s under the folded key, a marker as {}, and otherwise by the database asked for the e-mail as given; what is stored then, and when |
| CustomerCache.StepsAreFind | server/modules/customer_enrichment.py:65-93 | the steps of the interleaving model, undisturbed, are the sequential lookup |
| CustomerCache.BoundedStaleness | server/modules/customer_enrichment.py:37-93 | in every interleaving an answer is what the database said of an e-mail with the same key at an instant less than 300 s plus the filler's own delay before |
| CustomerCache.AgreesWithDatabase | server/modules/customer_enrichment.py:37-93 | that is the e-mail of the lookup itself when the run asks for no other spelling with the same key |
| CustomerCache.SpellingsDisagree | server/modules/customer_enrichment.py:37-93 | otherwise it need not be: for any two e-mails with one key that the database tells apart, a run gives one of them an answer that was never true of it |
| CustomerCache.SerialLookupsFresh | server/modules/customer_enrichment.py:65-106 | in a serial run with one spelling per key and an invalidation after each change every lookup is fresh |
| CustomerCache.FreshAfterInvalidation | server/modules/customer_enrichment.py:96-106 | whatever was cached, the next serial lookup under the key after an invalidation is fresh, and other entries stay |
| CustomerCache.InvalidationExact | server/modules/customer_enrichment.py:82-106 | in every continuation every later reply under the key is what the database said at or after the invalidation, if and only if no lookup under the key held an outdated answer at it |
| CustomerCache.QuietInvalidation | server/modules/customer_enrichment.py:82-106 | so invalidation works in every interleaving when nobody stands between read and store under the key |
| CustomerCache.FoldedKeysCollide | server/modules/customer_enrichment.py:72-82 | of any two e-mails with one key that the database tells apart, the second is answered with the row, or the absence, of the first |
| CustomerCache.AbsentCustomerTwice | server/modules/customer_enrichment.py:76-91 | an absent customer is answered with None once and with {} from then on |
| CustomerCache.AbsentCustomerExact | server/modules/customer_enrichment.py:65-93 | an absent customer is answered with None if and only if the cache is not asked or has no live entry, and with {} if and only if it has a live marker |
| CustomerCache.StaleRefill | server/modules/customer_enrichment.py:82-106 | after any run, a lookup that stands between its read and its store with an outdated answer undoes an invalidation: the next lookup is given the old answer |
| ChaosLifecycle.PayloadRoundTrip | server/chaos/registry.py:62-85 | every scenario survives to_json and from_json field for field |
| ChaosLifecycle.PayloadRead | server/chaos/registry.py:74-85 | what a payload is read as, field by field, with the defaults for missing fields; malformed without identifier or expiry |
| ChaosLifecycle.Latest | server/chaos/registry.py:155-164 | the query finds a row if and only if one has not expired, and of those the one applied last |
| ChaosLifecycle.ChaosAdmin.Persist | server/chaos/admin.py:112-141 | delete and insert in one transaction: one row, or nothing changed; the table moves as in the histories |
| ChaosLifecycle.ChaosAdmin.ApplyScenario | server/chaos/admin.py:183-213 | an apply is refused exactly out of bounds or for a name that is none of the six presets; else the reply and the one row hold, field by field, the request, the actor, the time requested, the faults of that preset in order, and the note if there is a non-empty one |
| ChaosLifecycle.PresetsExact | server/chaos/registry.py:88-129 | the six presets and the faults of each, in order |
| ChaosLifecycle.ChaosAdmin.ClearScenario | server/chaos/admin.py:144-153 | a clear answers ok also when it failed, and moves the table as in the histories |
| ChaosLifecycle.ChaosAdmin.GetActiveState | server/chaos/registry.py:143-199 | the defensive reader carries out its specification |
| ChaosLifecycle.ActiveIffLastApplied | server/chaos/admin.py:112-153 | over every history of applies and clears one after the other at most one row, and the reader gives a scenario exactly when it is switched on, the scenario was the last applied, no clear succeeded since, and it has not expired |
| ChaosLifecycle.AppliedIsActive | server/chaos/registry.py:143-199 | from request to reader: what a request applied is read until its time to live is over and not longer, with the faults of the preset asked for, as long as nothing replaced or cleared it |
| ChaosLifecycle.NothingOutlivesMaximum | server/chaos/admin.py:183-213 | nothing is active the longest time to live after its apply |
| ChaosOverlap.TableExact | server/chaos/admin.py:112-153 | in every run of overlapping applies and clears the table holds exactly the rows of the committed applies after whose commit nothing began that has committed, each once and with what was applied |
| ChaosOverlap.OneRowExact | server/chaos/admin.py:112-153 | there is more than one row if and only if there are two committed applies after whose commit no committed transaction began; two such applies overlapped |
| ChaosOverlap.OneRowWithoutOverlap | server/chaos/admin.py:112-153 | at most one row as long as no two applies overlap, whatever clears do |
| ChaosOverlap.SerialTransaction | server/chaos/admin.py:112-153 | a transaction that nothing overlaps changes the table as in the serial histories |
| ChaosOverlap.TwoAppliesLeaveTwoRows | server/chaos/admin.py:112-141 | the run of two applies that begin before either commits ends with both rows |
| ChaosOverlap.ReplacedScenarioReturns | server/chaos/registry.py:143-199 | after that run the reader gives the later scenario, and the earlier one once the later has expired |
| Bootstrap.Bootstrapper.AddColumns | server/bootstrap.py:257-259 | the loop issues one ALTER for each missing column, in order, and no other |
| Bootstrap.Bootstrapper.CreateAll | server/bootstrap.py:55-56 | missing tables are created as declared |
| Bootstrap.Bootstrapper.EnsureOrderColumns | server/bootstrap.py:240-271 | order columns, the constraint on source references, and the audit table if it is missing |
| Bootstrap.Bootstrapper.EnsureProductColumns | server/bootstrap.py:274-286 | the image column of products |
| Bootstrap.Bootstrapper.EnsureCatalogSchema | server/bootstrap.py:289-334 | the shops table or its columns, and the shop column of products |
| Bootstrap.Bootstrapper.UpgradeSchema | server/bootstrap.py:53-59 | the four schema steps carry out the specified upgrade and statement list |
| Bootstrap.UpgradeExact | server/bootstrap.py:240-334 | no table and no column is dropped; each table gets exactly the columns it lacks |
| Bootstrap.IssuedIffNeeded | server/bootstrap.py:240-334 | a statement is issued if and only if what it adds is missing |
| Bootstrap.UpgradeTwice | server/bootstrap.py:240-334 | a second upgrade issues nothing and changes nothing |
| Bootstrap.Bootstrapper.ReconcileAdmin | server/bootstrap.py:72-98 | the update or insert of the administrator carries out the specification |
| Bootstrap.ReconcileExact | server/bootstrap.py:72-98 | refused if and only if there is no administrator and both names are taken; else one administrator with the role admin, under its old name or the first free one, everybody else untouched |
| Bootstrap.ReconcileTwice | server/bootstrap.py:72-98 | a second run changes nothing but the salted hash |
| Bootstrap.Bootstrapper.EnsureDemoShop | server/bootstrap.py:374-382 | one demo shop is overwritten field by field or inserted |
| Bootstrap.EnsureShopEffect | server/bootstrap.py:374-382 | afterwards the shop is there once; other shops stay; nothing changes if it was there already |
| Bootstrap.Bootstrapper.EnsureDemoShops | server/bootstrap.py:337-389 | the shop loop and the adoption of products carry out the specification |
| Bootstrap.DemoShopsExact | server/bootstrap.py:337-389 | both demo shops once with their values, shopless products in the first, all else as before |
| Bootstrap.DemoShopsTwice | server/bootstrap.py:337-389 | a second run leaves shops and products as they are |
| Bootstrap.Bootstrapper.Run | server/bootstrap.py:53-100 | the run on a database with users carries out the specified bootstrap: schema, administrator, shops, or a rollback of the rows exactly when no name is left |
| Bootstrap.BootedExact | server/bootstrap.py:53-100 | what a run leaves: every table and column that may be missing, none lost; rows as before if no name is left for the administrator; else one administrator, other users untouched, both demo shops once, other shops as before, every product in its own shop or the primary one |
| Bootstrap.RunTwice | server/bootstrap.py:53-100 | a second bootstrap issues no statement and changes nothing but the administrator's salted hash; after a refused one it is refused again and changes no row |
| SqlId.ComputeOracleSqlId | server/observability/db_spans.py:33-42 | the 13-step loop yields 13 alphabet characters, the first among the first 16, that decode to the 64-bit value |
| SqlId.DecodeInjective | server/observability/db_spans.py:21-42 | different identifiers stand for different values |
| SqlId.DecodeInRange | server/observability/db_spans.py:32-42 | every identifier of that form stands for a 64-bit value |
| InFlightGauge.HttpMetrics.RequestStarted | server/observability/metrics.py:138-140 | one more under the label, totals unchanged |
| InFlightGauge.HttpMetrics.RequestFinished | server/observability/metrics.py:142-144 | one less under the label, totals unchanged |
| InFlightGauge.HttpMetrics.RecordRequest | server/observability/metrics.py:127-136 | one more request and one more duration under label and status, gauge unchanged |
| InFlightGauge.Middleware.Enter | server/middleware/metrics_mw.py:19-24 | a request starts: the gauge rises under its path |
| InFlightGauge.Middleware.Leave | server/middleware/metrics_mw.py:27-43 | a request ends, with a response or by raising: the gauge falls under the template or the path, the total and the duration are recorded |
| InFlightGauge.GaugeConserved | server/observability/metrics.py:138-144 | in every interleaving the gauge summed over all labels is the number of requests in flight |
| InFlightGauge.CountedAndMeasured | server/observability/metrics.py:127-136 | under every label and status as many durations are recorded as requests are counted |
| InFlightGauge.MeasuredExact | server/middleware/metrics_mw.py:27-43 | under every label and status exactly the finished requests that belong there, in order: template if not empty, else path; the status, or 500 for one that raised |
| InFlightGauge.GaugeOfLabel | server/middleware/metrics_mw.py:19-43 | label by label: requests in flight plus begun under it less finished under it |
| InFlightGauge.QuietGauge | server/middleware/metrics_mw.py:19-43 | when nothing is in flight all labels are zero if and only if begun and finished labels agree as multisets |
| InFlightGauge.MatchingTemplates | server/middleware/metrics_mw.py:19-43 | when each template equals its path every label shows exactly its requests in flight |
| InFlightGauge.TemplateLeaks | server/middleware/metrics_mw.py:31-34 | one request to a path that is not its template leaves one label at 1 and another at -1 |

## Left out

- HTTP, routing, templates, tracing, logging, metrics export and outgoing calls to the shop: no state of the model depends on them.
- Single sign-on beyond the signed cookie (discovery, keys, token verification, user provisioning), password hashing and registration: foreign calls or single inserts. A session created by either sign-on is one `LogIn` step.
- Column widths, text encodings and the driver's empty-string convention: values are unbounded text.
- Floating point: money is exact (`real`); NaN and infinities do not occur, and rounding to cents is written out.
- Values of a wrong shape in an external order other than its e-mail, its quantities and its shipping cost (a customer or an item that is not an object, say): they raise and abort the run in the same way.
- Order requests with values that do not convert, and the comparison of the client's total, which only writes to the log.
- The management audit log of the handlers, the read-only endpoints, invoices, tickets, campaigns and shipments: rows without a constraint the theorems need.
- Batching of item inserts at flush time: items are inserted one by one, so a foreign key refuses at the item and not at the flush; the savepoint takes back the same rows.
- Interleaving inside the write phase of one request, or of one order of a sync: it reads at one instant and writes at another; other requests run before, between and after.
- Interrupted syncs and isolation: an order of an interrupted sync sees what other syncs have written and not yet committed, where the database would make it wait; and every batch of an interrupted sync is readable, so none is rolled back as a whole. What a request reads is not restricted at all.
- `update_order_status` marks a smaller set of statuses as backlog than the sync does; no common status and backlog invariant is claimed.
- The path prefixes and the accept header by which the gate tells public requests and API calls: an arrival says which it is.
- The simulated disconnect and latency of `get_db`, and the read-to-store delays of both caches: any delay is allowed.
- The rate limit on session-lookup error logging, and the half second and eight seconds of the gate as numbers: a wait may expire at any time.
- Several addresses of one client, and the store of the limiter in several processes: the limiter is per process and per address, as in the code.
- Bootstrap.Bootstrapper.CreateAll: does not model all declared tables; orders, products, shops and the audit table stand for them, because no statement depends on the others.
- Bootstrap.Bootstrapper.Run: does not model the run on an empty user table, which inserts the constants of the demo data set, nor adding the constraint on source references over duplicates, which the database refuses.
- SQL text and MD5 in front of the SQL_ID loop: the loop is proved for every 64-bit value. Shifts and masks are written as division and remainder by 32.
- Locks between overlapping chaos transactions: a deletion sees the rows committed when it begins. A database that waits for locks, or starts a waiting deletion anew, has fewer of these runs, and in each of them the theorems hold.
- Chaos back ends other than the database, the role guard and the fault injection itself.
