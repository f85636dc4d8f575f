/** The management endpoints and the order endpoint as transactions over the shared tables.

    A request first reads; what it read decides its plan. Later it writes, and commits or is
    rolled back as a whole. Other transactions may commit between its reads and its writes. */
module Catalog {
  import opened Wrappers
  import opened Database
  import opened Normalization
  import opened OrderSync

  datatype ProductForm = ProductForm(name: string, sku: string, description: string, price: real, stock: int,
                                     category: string, imageUrl: Option<string>, shop: Option<nat>, isActive: bool)

  datatype ShopForm = ShopForm(name: string, slug: string, storefrontUrl: string, crmBaseUrl: string,
                               region: string, currency: string, status: string, notes: string)

  /** `product` is zero when the item names none. */
  datatype ItemForm = ItemForm(product: nat, quantity: int, unitPrice: real)

  /** An order request. The lone-item fields are used when there is no item list; `generatedRef`
      is the reference made up for a request that brings none. */
  datatype OrderForm = OrderForm(customer: nat, items: seq<ItemForm>, loneItem: ItemForm,
                                 notes: string, shippingAddress: string,
                                 sourceSystem: string, sourceOrderId: string, generatedRef: string,
                                 correlationId: string, now: int)

  datatype Request =
    | CreateProduct(product: ProductForm)
    | UpdateProduct(id: nat, product: ProductForm)
    | DeleteProduct(id: nat)
    | CreateShop(shop: ShopForm)
    | UpdateShop(id: nat, shop: ShopForm)
    | DeleteShop(id: nat)
    | CreateOrder(order: OrderForm)
    | SetStatus(id: nat, status: string)
    | SyncOrders(e: Env, batch: seq<Normalized>, correlationId: string)

  datatype Response =
    | Made(id: nat) | Changed | Archived | Deleted
    | NotFound | Duplicate | NoShop | ShopInUse | BadQuantity
    | Synced(result: SyncResult)
    | Crashed(err: DbError)

  // ---------------------------------------------------------------- reads

  /** What a request will write, given what it read. */
  datatype Plan =
    | Answer(response: Response)
    | AddProduct(row: Product)
    | EditProduct(id: nat, loaded: Product, wanted: Product, reply: Response)
    | RemoveProduct(id: nat)
    | AddShop(newShop: Shop)
    | EditShop(id: nat, loadedShop: Shop, wantedShop: Shop)
    | RemoveShop(id: nat)
    | AddOrder(order: Order, lines: seq<Line>)
    | EditStatus(id: nat, loadedOrder: Order, wantedOrder: Order)
    | RunSync(e: Env, cache: map<string, nat>, batch: seq<Normalized>, correlationId: string)

  function ProductRow(f: ProductForm): Product {
    Product(f.shop, f.name, f.sku, f.description, f.price, f.stock, f.category, f.imageUrl, f.isActive)
  }

  /** A product other than `id` carries the SKU. */
  ghost predicate SkuElsewhere(t: Tables, sku: string, id: nat) {
    exists p :: p in t.products && p != id && t.products[p].sku == sku
  }

  ghost predicate SlugElsewhere(t: Tables, slug: string, id: nat) {
    exists s :: s in t.shops && s != id && t.shops[s].slug == slug
  }

  ghost predicate HasOrderItem(t: Tables, product: nat) {
    exists i :: i in t.items && t.items[i].product == Some(product)
  }

  ghost predicate HasProduct(t: Tables, shop: nat) {
    exists p :: p in t.products && t.products[p].shop == Some(shop)
  }

  predicate NamesMissingShop(t: Tables, shop: Option<nat>) {
    shop.Some? && shop.value !in t.shops
  }

  ghost function PlanCreateProduct(t: Tables, f: ProductForm): Plan {
    if SkuInUse(t, f.sku) then Answer(Duplicate)
    else if NamesMissingShop(t, f.shop) then Answer(NoShop)
    else AddProduct(ProductRow(f))
  }

  ghost function PlanUpdateProduct(t: Tables, id: nat, f: ProductForm): Plan {
    if id !in t.products then Answer(NotFound)
    else if SkuElsewhere(t, f.sku, id) then Answer(Duplicate)
    else if NamesMissingShop(t, f.shop) then Answer(NoShop)
    else EditProduct(id, t.products[id], ProductRow(f), Changed)
  }

  /** A product with order history is archived instead of deleted. */
  ghost function PlanDeleteProduct(t: Tables, id: nat): Plan {
    if id !in t.products then Answer(NotFound)
    else if HasOrderItem(t, id) then EditProduct(id, t.products[id], t.products[id].(isActive := false), Archived)
    else RemoveProduct(id)
  }

  /** The column defaults of a new shop. */
  const NEW_CONTACT := Contact("", "", "", "", true)

  function ShopRow(f: ShopForm, contact: Contact): Shop {
    Shop(f.name, f.slug, f.storefrontUrl, f.crmBaseUrl, f.region, f.currency, f.status, f.notes, contact)
  }

  ghost function PlanCreateShop(t: Tables, f: ShopForm): Plan {
    if SlugInUse(t, f.slug) then Answer(Duplicate) else AddShop(ShopRow(f, NEW_CONTACT))
  }

  ghost function PlanUpdateShop(t: Tables, id: nat, f: ShopForm): Plan {
    if id !in t.shops then Answer(NotFound)
    else if SlugElsewhere(t, f.slug, id) then Answer(Duplicate)
    else EditShop(id, t.shops[id], ShopRow(f, t.shops[id].contact))
  }

  ghost function PlanDeleteShop(t: Tables, id: nat): Plan {
    if id !in t.shops then Answer(NotFound)
    else if HasProduct(t, id) then Answer(ShopInUse)
    else RemoveShop(id)
  }

  // ---------------------------------------------------------------- the order request

  function FormItems(f: OrderForm): seq<ItemForm> {
    if f.items != [] then f.items
    else if f.loneItem.product != 0 then
      [f.loneItem.(quantity := if f.loneItem.quantity == 0 then 1 else f.loneItem.quantity)]
    else []
  }

  /** The catalogue price for a known product, the price in the request otherwise. */
  function PricedLine(products: map<nat, Product>, item: ItemForm): Line {
    if item.product != 0 && item.product in products then
      Line(Some(item.product), item.quantity, products[item.product].price)
    else Line(None, item.quantity, item.unitPrice)
  }

  /** The priced lines; nothing when a quantity is not positive. */
  function PricedLines(products: map<nat, Product>, items: seq<ItemForm>): (r: Option<seq<Line>>)
    ensures r.Some? ==> |r.value| == |items|
  {
    if items == [] then Some([])
    else
      var rest := PricedLines(products, items[..|items| - 1]);
      var last := items[|items| - 1];
      if rest.None? || last.quantity <= 0 then None else Some(rest.value + [PricedLine(products, last)])
  }

  function FormSystem(f: OrderForm): string {
    OrText(f.sourceSystem, "enterprise-crm")
  }

  function FormRef(f: OrderForm): string {
    OrText(f.sourceOrderId, f.generatedRef)
  }

  function FormRow(f: OrderForm, total: real, email: string): Order {
    Order(f.customer, total, "pending", f.notes, f.shippingAddress, FormSystem(f), FormRef(f), email,
          "local", "backlog", None, None, f.correlationId, None, f.now)
  }

  function PlanCreateOrder(t: Tables, f: OrderForm): Plan {
    if f.customer == 0 || f.customer !in t.customers then Answer(NotFound)
    else
      var lines := PricedLines(t.products, FormItems(f));
      if lines.None? then Answer(BadQuantity)
      else AddOrder(FormRow(f, Total(lines.value), t.customers[f.customer].email), lines.value)
  }

  function WithStatus(o: Order, status: string): Order {
    o.(status := status,
       backlogStatus := if status in {"pending", "processing", "queued"} then "backlog" else "current")
  }

  function PlanSetStatus(t: Tables, id: nat, status: string): Plan {
    if id !in t.orders then Answer(NotFound)
    else EditStatus(id, t.orders[id], WithStatus(t.orders[id], status))
  }

  ghost function Read(s: Store, r: Request): Plan {
    match r
    case CreateProduct(f) => PlanCreateProduct(s.t, f)
    case UpdateProduct(id, f) => PlanUpdateProduct(s.t, id, f)
    case DeleteProduct(id) => PlanDeleteProduct(s.t, id)
    case CreateShop(shop) => PlanCreateShop(s.t, shop)
    case UpdateShop(id, shop) => PlanUpdateShop(s.t, id, shop)
    case DeleteShop(id) => PlanDeleteShop(s.t, id)
    case CreateOrder(f) => PlanCreateOrder(s.t, f)
    case SetStatus(id, status) => PlanSetStatus(s.t, id, status)
    case SyncOrders(e, batch, c) => RunSync(e, Lookup(e, s), batch, c)
  }

  // ---------------------------------------------------------------- writes

  /** An UPDATE names only the columns whose value differs from the row that was loaded. */
  function Merge<T(==)>(loaded: T, wanted: T, current: T): T {
    if loaded == wanted then current else wanted
  }

  function MergeProduct(loaded: Product, wanted: Product, current: Product): Product {
    Product(Merge(loaded.shop, wanted.shop, current.shop), Merge(loaded.name, wanted.name, current.name),
            Merge(loaded.sku, wanted.sku, current.sku),
            Merge(loaded.description, wanted.description, current.description),
            Merge(loaded.price, wanted.price, current.price), Merge(loaded.stock, wanted.stock, current.stock),
            Merge(loaded.category, wanted.category, current.category),
            Merge(loaded.imageUrl, wanted.imageUrl, current.imageUrl),
            Merge(loaded.isActive, wanted.isActive, current.isActive))
  }

  function MergeShop(loaded: Shop, wanted: Shop, current: Shop): Shop {
    Shop(Merge(loaded.name, wanted.name, current.name), Merge(loaded.slug, wanted.slug, current.slug),
         Merge(loaded.storefrontUrl, wanted.storefrontUrl, current.storefrontUrl),
         Merge(loaded.crmBaseUrl, wanted.crmBaseUrl, current.crmBaseUrl),
         Merge(loaded.region, wanted.region, current.region),
         Merge(loaded.currency, wanted.currency, current.currency),
         Merge(loaded.status, wanted.status, current.status), Merge(loaded.notes, wanted.notes, current.notes),
         Merge(loaded.contact, wanted.contact, current.contact))
  }

  function MergeStatus(loaded: Order, wanted: Order, current: Order): Order {
    current.(status := Merge(loaded.status, wanted.status, current.status),
             backlogStatus := Merge(loaded.backlogStatus, wanted.backlogStatus, current.backlogStatus))
  }

  /** The outcome of a write phase: committed with a response, or rolled back by an error. */
  datatype Written = Committed(s: Store, response: Response) | RolledBack(s: Store, error: DbError)

  ghost function WriteEditProduct(s: Store, id: nat, loaded: Product, wanted: Product, reply: Response): (r: Written)
    requires Sound(s)
    ensures Sound(r.s) && r.s.ids == s.ids
    ensures r.RolledBack? ==> r.s == s
    ensures r.s.t == s.t.(products := r.s.t.products) && r.s.t.products.Keys == s.t.products.Keys
  {
    if loaded == wanted then Committed(s, reply)
    else if id !in s.t.products then RolledBack(s, RowGone)
    else
      var row := MergeProduct(loaded, wanted, s.t.products[id]);
      if SkuElsewhere(s.t, row.sku, id) then RolledBack(s, SkuTaken)
      else if NamesMissingShop(s.t, row.shop) then RolledBack(s, NoSuchShop)
      else Committed(s.(t := s.t.(products := s.t.products[id := row])), reply)
  }

  ghost function WriteRemoveProduct(s: Store, id: nat): (r: Written)
    requires Sound(s)
    ensures Sound(r.s) && r.s.ids == s.ids
    ensures r.RolledBack? ==> r.s == s
    ensures r.RolledBack? <==> HasOrderItem(s.t, id)
    ensures r.Committed? ==> r.s.t == s.t.(products := s.t.products - {id})
  {
    if HasOrderItem(s.t, id) then RolledBack(s, StillReferenced)
    else Committed(s.(t := s.t.(products := s.t.products - {id})), Deleted)
  }

  ghost function WriteEditShop(s: Store, id: nat, loaded: Shop, wanted: Shop): (r: Written)
    requires Sound(s)
    ensures Sound(r.s) && r.s.ids == s.ids
    ensures r.RolledBack? ==> r.s == s
    ensures r.s.t == s.t.(shops := r.s.t.shops) && r.s.t.shops.Keys == s.t.shops.Keys
  {
    if loaded == wanted then Committed(s, Changed)
    else if id !in s.t.shops then RolledBack(s, RowGone)
    else
      var row := MergeShop(loaded, wanted, s.t.shops[id]);
      if SlugElsewhere(s.t, row.slug, id) then RolledBack(s, SlugTaken)
      else Committed(s.(t := s.t.(shops := s.t.shops[id := row])), Changed)
  }

  /** Products that lose their shop: the mapping takes a deleted shop's products out of it. */
  function Unassigned(products: map<nat, Product>, shop: nat): map<nat, Product> {
    map p | p in products :: if products[p].shop == Some(shop) then products[p].(shop := None) else products[p]
  }

  function ShopRemoved(s: Store, id: nat): Store {
    s.(t := s.t.(shops := s.t.shops - {id}, products := Unassigned(s.t.products, id)))
  }

  lemma ShopRemovedSound(s: Store, id: nat)
    requires Sound(s)
    ensures Sound(ShopRemoved(s, id))
  {
    var t := ShopRemoved(s, id).t;
    assert UniqueSlugs(t.shops) && UniqueSkus(t.products) && ShopsLive(t);
  }

  lemma NothingUnassigned(s: Store, id: nat)
    requires !HasProduct(s.t, id)
    ensures Unassigned(s.t.products, id) == s.t.products
  {
  }

  ghost function WriteRemoveShop(s: Store, id: nat): (r: Store)
    requires Sound(s)
    ensures Sound(r) && r.ids == s.ids
    ensures r.t.items == s.t.items && r.t.products.Keys == s.t.products.Keys
    ensures !HasProduct(s.t, id) ==> r.t == s.t.(shops := s.t.shops - {id})
  {
    ShopRemovedSound(s, id);
    if HasProduct(s.t, id) then ShopRemoved(s, id)
    else
      NothingUnassigned(s, id);
      ShopRemoved(s, id)
  }

  /** The item rows of a new order, up to the first that is refused. */
  ghost function InsertLines(s: Store, order: nat, lines: seq<Line>): (r: Inserted)
    requires Sound(s) && order in s.t.orders
    ensures Sound(r.s) && NotBefore(s.ids, r.s.ids)
    ensures r.s.t == s.t.(items := r.s.t.items)
    decreases |lines|
  {
    if lines == [] then Database.Written(s, order)
    else
      var r := InsertItem(s, Item(order, lines[0].product, lines[0].quantity, lines[0].unitPrice));
      if r.Refused? then r else InsertLines(r.s, order, lines[1..])
  }

  ghost function WriteAddOrder(s: Store, row: Order, lines: seq<Line>): (r: Written)
    requires Sound(s)
    ensures Sound(r.s) && NotBefore(s.ids, r.s.ids)
    ensures r.RolledBack? ==> r.s.t == s.t
    ensures r.s.t == s.t.(orders := r.s.t.orders, items := r.s.t.items)
  {
    var o := InsertOrder(s, row);
    if o.Refused? then RolledBack(o.s, o.err)
    else
      var r := InsertLines(o.s, o.id, lines);
      if r.Refused? then RolledBack(Store(s.t, r.s.ids), r.err) else Committed(r.s, Made(o.id))
  }

  ghost function WriteEditStatus(s: Store, id: nat, loaded: Order, wanted: Order): (r: Written)
    requires Sound(s)
    ensures Sound(r.s) && r.s.ids == s.ids
    ensures r.RolledBack? ==> r.s == s
    ensures r.s.t == s.t.(orders := r.s.t.orders) && r.s.t.orders.Keys == s.t.orders.Keys
  {
    if loaded == wanted then Committed(s, Changed)
    else if id !in s.t.orders then RolledBack(s, RowGone)
    else Committed(PutOrder(s, id, MergeStatus(loaded, wanted, s.t.orders[id])), Changed)
  }

  function FromInsert(r: Inserted): Written {
    match r
    case Written(s, id) => Committed(s, Made(id))
    case Refused(s, err) => RolledBack(s, err)
  }

  ghost function WriteSync(s: Store, e: Env, cache: map<string, nat>, batch: seq<Normalized>, c: string): (r: Written)
    requires Sound(s)
    ensures Sound(r.s) && NotBefore(s.ids, r.s.ids) && r.Committed?
  {
    var r := RunBatch(e, Batch(Work(s, cache), EMPTY_RESULT), batch, c);
    Committed(r.w.s, Synced(r.result))
  }

  ghost function Write(s: Store, p: Plan): (r: Written)
    requires Sound(s)
    ensures Sound(r.s) && NotBefore(s.ids, r.s.ids)
    ensures r.RolledBack? ==> r.s.t == s.t
  {
    match p
    case Answer(response) => Committed(s, response)
    case AddProduct(row) => FromInsert(InsertProduct(s, row))
    case EditProduct(id, loaded, wanted, reply) => WriteEditProduct(s, id, loaded, wanted, reply)
    case RemoveProduct(id) => WriteRemoveProduct(s, id)
    case AddShop(row) => FromInsert(InsertShop(s, row))
    case EditShop(id, loaded, wanted) => WriteEditShop(s, id, loaded, wanted)
    case RemoveShop(id) => Committed(WriteRemoveShop(s, id), Deleted)
    case AddOrder(row, lines) => WriteAddOrder(s, row, lines)
    case EditStatus(id, loaded, wanted) => WriteEditStatus(s, id, loaded, wanted)
    case RunSync(e, cache, batch, c) => WriteSync(s, e, cache, batch, c)
  }

  // ---------------------------------------------------------------- interleavings

  /** The shared store and the transactions that have read but not yet written. */
  datatype World = World(s: Store, open: map<nat, Plan>)

  /** The store after one order of a sync, and what is left of the sync. */
  datatype Turned = Turned(s: Store, rest: Plan)

  /** A request reads what the database shows it. That may be any store, an old one or one without what
      other transactions have written and not yet committed: nothing below depends on it. */
  ghost predicate Begins(a: World, b: World, tx: nat, r: Request, seen: Store) {
    tx !in a.open && b == a.(open := a.open[tx := Read(seen, r)])
  }

  /** One order of a sync batch on the shared store, with the cache the orders before it have left. */
  ghost function Turn(s: Store, p: Plan): (r: Turned)
    requires Sound(s) && p.RunSync? && p.batch != []
    ensures Sound(r.s) && NotBefore(s.ids, r.s.ids) && r.rest.RunSync?
  {
    var w := ProcessOrder(p.e, Batch(Work(s, p.cache), EMPTY_RESULT), p.batch[0], p.correlationId).w;
    Turned(w.s, RunSync(p.e, w.cache, p.batch[1..], p.correlationId))
  }

  /** A sync that is under way processes its next order; its other orders come later. */
  ghost predicate Advances(a: World, b: World, tx: nat)
    requires Sound(a.s)
  {
    && tx in a.open && a.open[tx].RunSync? && a.open[tx].batch != []
    && b == World(Turn(a.s, a.open[tx]).s, a.open[tx := Turn(a.s, a.open[tx]).rest])
  }

  ghost predicate Ends(a: World, b: World, tx: nat)
    requires Sound(a.s)
  {
    tx in a.open && b == World(Write(a.s, a.open[tx]).s, a.open - {tx})
  }

  ghost predicate Next(a: World, b: World)
    requires Sound(a.s)
  {
    || (exists tx, r, seen :: Begins(a, b, tx, r, seen))
    || (exists tx :: Advances(a, b, tx))
    || (exists tx :: Ends(a, b, tx))
  }

  /** Any interleaving of any requests, from any store that meets its constraints; a sync may be
      interrupted between any two orders of its batch. */
  ghost predicate Run(worlds: seq<World>) {
    |worlds| > 0 && Sound(worlds[0].s)
    && forall i :: 0 <= i < |worlds| - 1 ==> Sound(worlds[i].s) ==> Next(worlds[i], worlds[i + 1])
  }

  lemma NextKeepsSound(a: World, b: World)
    requires Sound(a.s) && Next(a, b)
    ensures Sound(b.s)
  {
    if tx :| Advances(a, b, tx) {
      assert Sound(Turn(a.s, a.open[tx]).s);
    } else if tx :| Ends(a, b, tx) {
      assert Sound(Write(a.s, a.open[tx]).s);
    }
  }

  /** In every state of every run all UNIQUE and FOREIGN KEY constraints hold: SKUs, slugs, e-mails
      and source references are unique, and every reference names a live row. */
  lemma {:induction false} AlwaysSound(worlds: seq<World>, i: nat)
    requires Run(worlds) && i < |worlds|
    ensures Sound(worlds[i].s)
  {
    if i > 0 {
      AlwaysSound(worlds, i - 1);
      assert worlds[i - 1 + 1] == worlds[i];
      NextKeepsSound(worlds[i - 1], worlds[i]);
    }
  }

  // ---------------------------------------------------------------- a sync, order by order

  /** The turn does not depend on the counters. */
  lemma SameWork(e: Env, a: Batch, b: Batch, n: Normalized, c: string)
    requires a.w == b.w && Sound(a.w.s)
    ensures ProcessOrder(e, a, n, c).w == ProcessOrder(e, b, n, c).w
  {
  }

  lemma {:induction false} RunFromFirst(e: Env, b: Batch, first: Batch, ns: seq<Normalized>, c: string)
    requires ns != [] && Sound(b.w.s) && Sound(first.w.s) && first.w == ProcessOrder(e, b, ns[0], c).w
    ensures RunBatch(e, b, ns, c).w == RunBatch(e, first, ns[1..], c).w
    decreases |ns|
  {
    var front := ns[..|ns| - 1];
    if |ns| == 1 {
      assert front == [] && ns[1..] == [];
    } else {
      assert ns[1..][..|ns| - 2] == front[1..];
      RunFromFirst(e, b, first, front, c);
      SameWork(e, RunBatch(e, b, front, c), RunBatch(e, first, front[1..], c), ns[|ns| - 1], c);
    }
  }

  /** A sync that nothing interrupts does in turns what it does in one go. */
  lemma UninterruptedTurn(s: Store, p: Plan)
    requires Sound(s) && p.RunSync? && p.batch != []
    ensures Write(s, p).s == Write(Turn(s, p).s, Turn(s, p).rest).s
  {
    var b := Batch(Work(s, p.cache), EMPTY_RESULT);
    var t := Turn(s, p);
    RunFromFirst(p.e, b, Batch(Work(t.s, t.rest.cache), EMPTY_RESULT), p.batch, p.correlationId);
  }
}
