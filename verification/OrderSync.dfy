/** The order-sync engine as a function of the store, the identity counters and the
    product cache. One order is applied inside a savepoint: when a statement is refused,
    the tables go back to the savepoint, the identity counters and the cache do not. */
module OrderSync {
  import opened Wrappers
  import opened Database
  import opened Normalization

  /** What one sync transaction works on. The cache maps lower-case text to a product id. */
  datatype Work = Work(s: Store, cache: map<string, nat>)

  /** Outcome of a part of the work on one order. */
  datatype Step = Done(w: Work, id: nat) | Raised(w: Work, err: DbError)

  datatype Action = Created | Updated

  datatype Upsert = Applied(w: Work, action: Action, order: nat) | Aborted(w: Work, err: DbError)

  datatype OrderSummary = OrderSummary(id: nat, sourceOrderId: string, status: string,
                                       backlogStatus: string, total: real)

  datatype SyncResult = SyncResult(created: nat, updated: nat, failed: nat, orders: seq<OrderSummary>)

  datatype Batch = Batch(w: Work, result: SyncResult)

  ghost predicate Extends<K, V>(a: map<K, V>, b: map<K, V>) {
    forall k :: k in a ==> k in b && a[k] == b[k]
  }

  // ---------------------------------------------------------------- customer

  function FallbackEmail(n: Normalized): string {
    n.sourceOrderId + "@external.local"
  }

  function CustomerRow(e: Env, n: Normalized): Customer {
    Customer(n.name, OrText(n.email, FallbackEmail(n)), e.source, "Retail", n.total,
             "Auto-created from " + e.source + " sync")
  }

  /** The customer an order belongs to. Only a non-empty e-mail is looked up; the fallback
      address is inserted without looking. */
  ghost function ResolveCustomer(e: Env, s: Store, n: Normalized): (r: Inserted)
    requires Sound(s)
    ensures Sound(r.s) && NotBefore(s.ids, r.s.ids)
    ensures r.s.ids == s.ids.(customer := r.s.ids.customer)
    ensures r.Refused? <==> n.email == "" && EmailInUse(s.t, FallbackEmail(n))
    ensures r.Refused? ==> r.s.t == s.t
    ensures r.Written? ==>
      && r.id in r.s.t.customers && r.s.t.customers[r.id].email == CustomerRow(e, n).email
      && r.s.t == s.t.(customers := r.s.t.customers)
      && Extends(s.t.customers, r.s.t.customers)
      && (r.id in s.t.customers ==> n.email != "" && r.s == s)
      && (r.id !in s.t.customers ==> r.s.t.customers == s.t.customers[r.id := CustomerRow(e, n)])
  {
    var found := if n.email == "" then None else FindCustomer(s.t, n.email);
    if found.Some? then Written(s, found.value)
    else InsertCustomer(s, CustomerRow(e, n))
  }

  // ---------------------------------------------------------------- order row

  function OrderRow(e: Env, n: Normalized, customer: nat, correlationId: string, createdAt: int): Order {
    Order(customer, n.total, n.status, n.notes, n.shippingAddress, e.source, n.sourceOrderId, n.email,
          "synced", n.backlogStatus, Some(""), Some(n.payload), correlationId, Some(n.lastSynced), createdAt)
  }

  /** An order row carries, column by column, what the external order says and which run stored it. */
  predicate RowHolds(e: Env, row: Order, n: Normalized, correlationId: string) {
    && row.total == n.total && row.status == n.status && row.backlogStatus == n.backlogStatus
    && row.notes == n.notes && row.shippingAddress == n.shippingAddress
    && row.sourceSystem == e.source && row.sourceOrderId == n.sourceOrderId && row.sourceEmail == n.email
    && row.syncStatus == "synced" && row.syncError == Some("") && row.payload == Some(n.payload)
    && row.lastSynced == Some(n.lastSynced) && row.correlationId == correlationId
  }

  datatype Saved = Saved(s: Store, action: Action, order: nat)

  /** Insert the order, or overwrite the row that already carries its source reference. */
  ghost function UpsertOrder(e: Env, s: Store, customer: nat, n: Normalized, correlationId: string): (r: Saved)
    requires Sound(s) && customer in s.t.customers
    ensures Sound(r.s) && NotBefore(s.ids, r.s.ids)
    ensures r.s.ids == s.ids.(order := r.s.ids.order)
    ensures r.s.t == s.t.(orders := r.s.t.orders)
    ensures r.action == Updated <==> RefInUse(s.t, e.source, n.sourceOrderId)
    ensures r.action == Updated ==> r.order in s.t.orders && HasRef(s.t.orders[r.order], e.source, n.sourceOrderId)
    ensures r.action == Created ==> r.order !in s.t.orders
    ensures r.s.t.orders == s.t.orders[r.order :=
      OrderRow(e, n, customer, correlationId,
               if r.action == Updated then s.t.orders[r.order].createdAt else n.createdAt)]
  {
    var found := FindRef(s.t, e.source, n.sourceOrderId);
    if found.Some? then
      Saved(PutOrder(s, found.value, OrderRow(e, n, customer, correlationId, s.t.orders[found.value].createdAt)),
            Updated, found.value)
    else
      var r := InsertOrder(s, OrderRow(e, n, customer, correlationId, n.createdAt));
      Saved(r.s, Created, r.id)
  }

  // ---------------------------------------------------------------- products

  /** The text an item is looked up under. */
  function Ref(e: Env, item: NormItem): string {
    e.lower(Show(e, Or(item.productRef, Str(item.productName))))
  }

  function BaseName(item: NormItem): string {
    OrText(item.productName, "Synced Item")
  }

  function GeneratedSku(e: Env, item: NormItem): string {
    "SYNC-" + e.digest(OrText(Ref(e, item), BaseName(item)))
  }

  function GeneratedProduct(e: Env, item: NormItem): Product {
    Product(None, BaseName(item), GeneratedSku(e, item), "Auto-created from " + e.source,
            item.unitPrice, 999, "External Sync", None, true)
  }

  /** The keys a generated product is remembered under: SKU and name, not the reference. */
  function Remember(e: Env, cache: map<string, nat>, p: Product, id: nat): map<string, nat> {
    cache[e.lower(p.sku) := id][e.lower(p.name) := id]
  }

  ghost function ResolveProduct(e: Env, w: Work, item: NormItem): (r: Step)
    requires Sound(w.s)
    ensures Sound(r.w.s) && NotBefore(w.s.ids, r.w.s.ids)
    ensures r.w.s.ids == w.s.ids.(product := r.w.s.ids.product)
    ensures r.w.s.t == w.s.t.(products := r.w.s.t.products) && Extends(w.s.t.products, r.w.s.t.products)
    ensures Ref(e, item) in w.cache ==> r == Done(w, w.cache[Ref(e, item)])
    ensures r.Raised? <==> Ref(e, item) !in w.cache && SkuInUse(w.s.t, GeneratedSku(e, item))
    ensures r.Raised? ==> r.w.s.t == w.s.t && r.w.cache == w.cache
    ensures r.Done? && Ref(e, item) !in w.cache ==>
      && r.id == w.s.ids.product && r.w.s.ids.product == r.id + 1
      && r.w.s.t.products == w.s.t.products[r.id := GeneratedProduct(e, item)]
      && r.w.cache == Remember(e, w.cache, GeneratedProduct(e, item), r.id)
  {
    var ref := Ref(e, item);
    if ref in w.cache then Done(w, w.cache[ref])
    else
      var p := GeneratedProduct(e, item);
      var r := InsertProduct(w.s, p);
      if r.Refused? then Raised(Work(r.s, w.cache), r.err)
      else Done(Work(r.s, Remember(e, w.cache, p, r.id)), r.id)
  }

  ghost function AddItem(e: Env, w: Work, order: nat, item: NormItem): (r: Step)
    requires Sound(w.s) && order in w.s.t.orders
    ensures Sound(r.w.s) && NotBefore(w.s.ids, r.w.s.ids)
    ensures r.w.s.t == w.s.t.(products := r.w.s.t.products, items := r.w.s.t.items)
    ensures Extends(w.s.t.products, r.w.s.t.products)
  {
    var p := ResolveProduct(e, w, item);
    if p.Raised? then p
    else
      var r := InsertItem(p.w.s, Item(order, Some(p.id), item.quantity, item.unitPrice));
      if r.Refused? then Raised(Work(r.s, p.w.cache), r.err)
      else Done(Work(r.s, p.w.cache), p.id)
  }

  /** The item loop. */
  ghost function AddItems(e: Env, w: Work, order: nat, items: seq<NormItem>): (r: Step)
    requires Sound(w.s) && order in w.s.t.orders
    ensures Sound(r.w.s) && NotBefore(w.s.ids, r.w.s.ids)
    ensures r.w.s.t == w.s.t.(products := r.w.s.t.products, items := r.w.s.t.items)
    ensures Extends(w.s.t.products, r.w.s.t.products)
    decreases |items|
  {
    if items == [] then Done(w, order)
    else
      var r := AddItem(e, w, order, items[0]);
      if r.Raised? then r else AddItems(e, r.w, order, items[1..])
  }

  // ---------------------------------------------------------------- one order

  function AuditFor(e: Env, ref: string, action: string, status: AuditStatus, correlationId: string): SyncAudit {
    SyncAudit(e.source, ref, action, status, correlationId)
  }

  function ActionName(a: Action): string {
    match a
    case Created => "created"
    case Updated => "updated"
  }

  /** Everything that happens inside the savepoint of one order, up to the audit row. */
  ghost function UpsertOne(e: Env, w: Work, n: Normalized, correlationId: string): (r: Upsert)
    requires Sound(w.s)
    ensures Sound(r.w.s) && NotBefore(w.s.ids, r.w.s.ids)
    ensures r.w.s.t.syncAudits == w.s.t.syncAudits && r.w.s.t.shops == w.s.t.shops
    ensures Extends(w.s.t.customers, r.w.s.t.customers) && Extends(w.s.t.products, r.w.s.t.products)
    ensures r.Applied? ==> r.order in r.w.s.t.orders
  {
    var c := ResolveCustomer(e, w.s, n);
    if c.Refused? then Aborted(Work(c.s, w.cache), c.err)
    else
      var o := UpsertOrder(e, c.s, c.id, n, correlationId);
      var emptied := DeleteLines(o.s, o.order);
      DeleteLinesEffect(o.s, o.order, o.order);
      var r := AddItems(e, Work(emptied, w.cache), o.order, n.items);
      if r.Raised? then Aborted(r.w, r.err) else Applied(r.w, o.action, o.order)
  }

  function Summary(t: Tables, order: nat): OrderSummary
    requires order in t.orders
  {
    var o := t.orders[order];
    OrderSummary(order, o.sourceOrderId, o.status, o.backlogStatus, o.total)
  }

  function Counted(r: SyncResult, action: Action, line: OrderSummary): SyncResult {
    var listed := r.(orders := r.orders + [line]);
    match action
    case Created => listed.(created := r.created + 1)
    case Updated => listed.(updated := r.updated + 1)
  }

  /** Leaving the savepoint: keep the work and record a success, or take the tables back to
      where they were at its start and record a failure. */
  ghost function Settle(e: Env, b: Batch, n: Normalized, r: Upsert, correlationId: string): Batch
    requires r.Applied? ==> r.order in r.w.s.t.orders
  {
    match r
    case Applied(w, action, order) =>
      Batch(w.(s := AddAudit(w.s, AuditFor(e, n.sourceOrderId, ActionName(action), Success, correlationId))),
            Counted(b.result, action, Summary(w.s.t, order)))
    case Aborted(w, _) =>
      var restored := Store(b.w.s.t, w.s.ids);
      Batch(Work(AddAudit(restored, AuditFor(e, n.sourceOrderId, "upsert", Failed, correlationId)), w.cache),
            b.result.(failed := b.result.failed + 1))
  }

  /** An order without an id gets an audit row and nothing else. */
  function Skip(e: Env, b: Batch, correlationId: string): Batch {
    Batch(b.w.(s := AddAudit(b.w.s, AuditFor(e, "", "skip", Invalid, correlationId))),
          b.result.(failed := b.result.failed + 1))
  }

  /** One turn of the batch loop. */
  ghost function ProcessOrder(e: Env, b: Batch, n: Normalized, correlationId: string): (r: Batch)
    requires Sound(b.w.s)
    ensures Sound(r.w.s) && NotBefore(b.w.s.ids, r.w.s.ids)
  {
    if n.sourceOrderId == "" then Skip(e, b, correlationId)
    else Settle(e, b, n, UpsertOne(e, b.w, n, correlationId), correlationId)
  }

  /** The batch loop over orders that could all be read. */
  ghost function RunBatch(e: Env, b: Batch, ns: seq<Normalized>, correlationId: string): (r: Batch)
    requires Sound(b.w.s)
    ensures Sound(r.w.s) && NotBefore(b.w.s.ids, r.w.s.ids)
    decreases |ns|
  {
    if ns == [] then b
    else ProcessOrder(e, RunBatch(e, b, ns[..|ns| - 1], correlationId), ns[|ns| - 1], correlationId)
  }

  lemma RunBatchStep(e: Env, b: Batch, ns: seq<Normalized>, n: Normalized, correlationId: string)
    requires Sound(b.w.s)
    ensures RunBatch(e, b, ns + [n], correlationId) ==
            ProcessOrder(e, RunBatch(e, b, ns, correlationId), n, correlationId)
  {
    assert (ns + [n])[..|ns|] == ns;
  }

  // ---------------------------------------------------------------- the product lookup

  /** The three keys under which a stored product can be found. */
  function AddKeys(e: Env, cache: map<string, nat>, p: Product, id: nat): map<string, nat> {
    cache[e.lower(p.sku) := id][e.lower(p.name) := id][e.showId(id) := id]
  }

  /** The lookup over the products with a key below `hi`, in key order; later rows win. */
  function LookupBelow(e: Env, products: map<nat, Product>, hi: nat): map<string, nat> {
    if hi == 0 then map[]
    else
      var rest := LookupBelow(e, products, hi - 1);
      if hi - 1 in products then AddKeys(e, rest, products[hi - 1], hi - 1) else rest
  }

  function Lookup(e: Env, s: Store): map<string, nat> {
    LookupBelow(e, s.t.products, s.ids.product)
  }

  const EMPTY_RESULT := SyncResult(0, 0, 0, [])

  /** A whole run over a readable batch, committed. */
  ghost function Sync(e: Env, s: Store, ns: seq<Normalized>, correlationId: string): (r: Batch)
    requires Sound(s)
    ensures Sound(r.w.s)
  {
    RunBatch(e, Batch(Work(s, Lookup(e, s)), EMPTY_RESULT), ns, correlationId)
  }
}
