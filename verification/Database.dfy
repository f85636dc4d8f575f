/** The relational store: the rows the CRM writes, the UNIQUE and FOREIGN KEY
    constraints declared on them, and the statements that the constraints can refuse.

    A table is a map from primary key to row. Identity counters live outside the
    tables, because a database sequence does not give numbers back on rollback. */
module Database {
  import opened Wrappers

  datatype Customer = Customer(name: string, email: string, company: string, industry: string,
                               revenue: real, notes: string)

  /** Where a shop is and how to reach it: the columns that no form changes. */
  datatype Contact = Contact(address: string, coordinates: string, email: string, phone: string, isActive: bool)

  datatype Shop = Shop(name: string, slug: string, storefrontUrl: string, crmBaseUrl: string,
                       region: string, currency: string, status: string, notes: string, contact: Contact)

  datatype Product = Product(shop: Option<nat>, name: string, sku: string, description: string,
                             price: real, stock: int, category: string, imageUrl: Option<string>,
                             isActive: bool)

  datatype Order = Order(customer: nat, total: real, status: string, notes: string,
                         shippingAddress: string, sourceSystem: string, sourceOrderId: string,
                         sourceEmail: string, syncStatus: string, backlogStatus: string,
                         syncError: Option<string>, payload: Option<string>, correlationId: string,
                         lastSynced: Option<int>, createdAt: int)

  datatype Item = Item(order: nat, product: Option<nat>, quantity: int, unitPrice: real)

  datatype AuditStatus = Success | Failed | Invalid

  datatype SyncAudit = SyncAudit(sourceSystem: string, sourceOrderId: string, action: string,
                                 status: AuditStatus, correlationId: string)

  datatype Tables = Tables(customers: map<nat, Customer>, shops: map<nat, Shop>,
                           products: map<nat, Product>, orders: map<nat, Order>,
                           items: map<nat, Item>, syncAudits: seq<SyncAudit>)

  /** The next value of each identity column. */
  datatype Ids = Ids(customer: nat, shop: nat, product: nat, order: nat, item: nat)

  datatype Store = Store(t: Tables, ids: Ids)

  datatype DbError =
    | EmailTaken | SkuTaken | SlugTaken | RefTaken
    | NoSuchCustomer | NoSuchShop | NoSuchProduct | NoSuchOrder
    | StillReferenced | RowGone

  /** Outcome of one INSERT. A refused INSERT still consumes its identity value. */
  datatype Inserted = Written(s: Store, id: nat) | Refused(s: Store, err: DbError)

  // ---------------------------------------------------------------- constraints

  ghost predicate UniqueEmails(customers: map<nat, Customer>) {
    forall a, b :: a in customers && b in customers && customers[a].email == customers[b].email ==> a == b
  }

  ghost predicate UniqueSlugs(shops: map<nat, Shop>) {
    forall a, b :: a in shops && b in shops && shops[a].slug == shops[b].slug ==> a == b
  }

  ghost predicate UniqueSkus(products: map<nat, Product>) {
    forall a, b :: a in products && b in products && products[a].sku == products[b].sku ==> a == b
  }

  /** The two columns of the constraint uq_orders_source_ref. */
  predicate HasRef(o: Order, system: string, ref: string) {
    o.sourceSystem == system && o.sourceOrderId == ref
  }

  ghost predicate UniqueRefs(orders: map<nat, Order>) {
    forall a, b :: a in orders && b in orders && HasRef(orders[a], orders[b].sourceSystem, orders[b].sourceOrderId)
      ==> a == b
  }

  ghost predicate ShopsLive(t: Tables) {
    forall p :: p in t.products && t.products[p].shop.Some? ==> t.products[p].shop.value in t.shops
  }

  ghost predicate CustomersLive(t: Tables) {
    forall o :: o in t.orders ==> t.orders[o].customer in t.customers
  }

  ghost predicate ItemOrdersLive(t: Tables) {
    forall i :: i in t.items ==> t.items[i].order in t.orders
  }

  ghost predicate ItemProductsLive(t: Tables) {
    forall i :: i in t.items && t.items[i].product.Some? ==> t.items[i].product.value in t.products
  }

  /** Every declared UNIQUE and FOREIGN KEY constraint holds. */
  ghost predicate Valid(t: Tables) {
    && UniqueEmails(t.customers) && UniqueSlugs(t.shops) && UniqueSkus(t.products) && UniqueRefs(t.orders)
    && ShopsLive(t) && CustomersLive(t) && ItemOrdersLive(t) && ItemProductsLive(t)
  }

  /** No identity column will hand out a key that is or was in use. */
  ghost predicate Ahead(s: Store) {
    && (forall k :: k in s.t.customers ==> k < s.ids.customer)
    && (forall k :: k in s.t.shops ==> k < s.ids.shop)
    && (forall k :: k in s.t.products ==> k < s.ids.product)
    && (forall k :: k in s.t.orders ==> k < s.ids.order)
    && (forall k :: k in s.t.items ==> k < s.ids.item)
  }

  ghost predicate Sound(s: Store) {
    Valid(s.t) && Ahead(s)
  }

  ghost predicate NotBefore(a: Ids, b: Ids) {
    a.customer <= b.customer && a.shop <= b.shop && a.product <= b.product && a.order <= b.order && a.item <= b.item
  }

  // ---------------------------------------------------------------- queries

  ghost predicate EmailInUse(t: Tables, email: string) {
    exists c :: c in t.customers && t.customers[c].email == email
  }

  ghost predicate SlugInUse(t: Tables, slug: string) {
    exists s :: s in t.shops && t.shops[s].slug == slug
  }

  ghost predicate SkuInUse(t: Tables, sku: string) {
    exists p :: p in t.products && t.products[p].sku == sku
  }

  ghost predicate RefInUse(t: Tables, system: string, ref: string) {
    exists o :: o in t.orders && HasRef(t.orders[o], system, ref)
  }

  /** The row a lookup by e-mail returns. */
  ghost function FindCustomer(t: Tables, email: string): (r: Option<nat>)
    ensures r.Some? <==> EmailInUse(t, email)
    ensures r.Some? ==> r.value in t.customers && t.customers[r.value].email == email
  {
    if EmailInUse(t, email) then
      var c :| c in t.customers && t.customers[c].email == email;
      Some(c)
    else None
  }

  /** The row a lookup by (source_system, source_order_id) returns. */
  ghost function FindRef(t: Tables, system: string, ref: string): (r: Option<nat>)
    ensures r.Some? <==> RefInUse(t, system, ref)
    ensures r.Some? ==> r.value in t.orders && HasRef(t.orders[r.value], system, ref)
  {
    if RefInUse(t, system, ref) then
      var o :| o in t.orders && HasRef(t.orders[o], system, ref);
      Some(o)
    else None
  }

  /** What is stored about one line of an order. */
  datatype Line = Line(product: Option<nat>, quantity: int, unitPrice: real)

  /** The lines of an order, in key order, among the items with a key below `hi`. */
  function LinesBelow(items: map<nat, Item>, order: nat, hi: nat): seq<Line> {
    if hi == 0 then []
    else
      var rest := LinesBelow(items, order, hi - 1);
      if hi - 1 in items && items[hi - 1].order == order then
        rest + [Line(items[hi - 1].product, items[hi - 1].quantity, items[hi - 1].unitPrice)]
      else rest
  }

  function Lines(s: Store, order: nat): seq<Line> {
    LinesBelow(s.t.items, order, s.ids.item)
  }

  /** What the lines come to. */
  function Total(lines: seq<Line>): real {
    if lines == [] then 0.0
    else Total(lines[..|lines| - 1]) + lines[|lines| - 1].quantity as real * lines[|lines| - 1].unitPrice
  }

  /** One line comes to its quantity times its price, and the lines of two lists to both together. */
  lemma {:induction false} TotalAdds(a: seq<Line>, line: Line, b: seq<Line>)
    ensures Total([line]) == line.quantity as real * line.unitPrice
    ensures Total(a + b) == Total(a) + Total(b)
  {
    assert [line][..0] == [] && Total([]) == 0.0;
    if b == [] {
      assert a + b == a;
    } else {
      TotalAdds(a, line, b[..|b| - 1]);
      assert (a + b)[..|a + b| - 1] == a + b[..|b| - 1];
    }
  }

  // ---------------------------------------------------------------- statements

  ghost function InsertCustomer(s: Store, row: Customer): (r: Inserted)
    requires Sound(s)
    ensures Sound(r.s) && NotBefore(s.ids, r.s.ids)
    ensures r.Refused? <==> EmailInUse(s.t, row.email)
    ensures r.Refused? ==> r.s.t == s.t
    ensures r.Written? ==> r.id !in s.t.customers && r.s.t == s.t.(customers := s.t.customers[r.id := row])
  {
    var id := s.ids.customer;
    var ids := s.ids.(customer := id + 1);
    if EmailInUse(s.t, row.email) then Refused(Store(s.t, ids), EmailTaken)
    else Written(Store(s.t.(customers := s.t.customers[id := row]), ids), id)
  }

  ghost function InsertShop(s: Store, row: Shop): (r: Inserted)
    requires Sound(s)
    ensures Sound(r.s) && NotBefore(s.ids, r.s.ids)
    ensures r.Refused? <==> SlugInUse(s.t, row.slug)
    ensures r.Refused? ==> r.s.t == s.t
    ensures r.Written? ==> r.id !in s.t.shops && r.s.t == s.t.(shops := s.t.shops[r.id := row])
  {
    var id := s.ids.shop;
    var ids := s.ids.(shop := id + 1);
    if SlugInUse(s.t, row.slug) then Refused(Store(s.t, ids), SlugTaken)
    else Written(Store(s.t.(shops := s.t.shops[id := row]), ids), id)
  }

  ghost function InsertProduct(s: Store, row: Product): (r: Inserted)
    requires Sound(s)
    ensures Sound(r.s) && NotBefore(s.ids, r.s.ids)
    ensures r.Refused? <==> SkuInUse(s.t, row.sku) || (row.shop.Some? && row.shop.value !in s.t.shops)
    ensures r.Refused? ==> r.s.t == s.t
    ensures r.s.ids == s.ids.(product := s.ids.product + 1)
    ensures r.Written? ==> r.id == s.ids.product && r.id !in s.t.products
                           && r.s.t == s.t.(products := s.t.products[r.id := row])
  {
    var id := s.ids.product;
    var ids := s.ids.(product := id + 1);
    if SkuInUse(s.t, row.sku) then Refused(Store(s.t, ids), SkuTaken)
    else if row.shop.Some? && row.shop.value !in s.t.shops then Refused(Store(s.t, ids), NoSuchShop)
    else Written(Store(s.t.(products := s.t.products[id := row]), ids), id)
  }

  ghost function InsertOrder(s: Store, row: Order): (r: Inserted)
    requires Sound(s)
    ensures Sound(r.s) && NotBefore(s.ids, r.s.ids)
    ensures r.Refused? <==> RefInUse(s.t, row.sourceSystem, row.sourceOrderId) || row.customer !in s.t.customers
    ensures r.Refused? ==> r.s.t == s.t
    ensures r.Refused? && row.customer in s.t.customers ==> r.err == RefTaken
    ensures r.s.ids == s.ids.(order := s.ids.order + 1)
    ensures r.Written? ==> r.id !in s.t.orders && r.s.t == s.t.(orders := s.t.orders[r.id := row])
  {
    var id := s.ids.order;
    var ids := s.ids.(order := id + 1);
    if row.customer !in s.t.customers then Refused(Store(s.t, ids), NoSuchCustomer)
    else if RefInUse(s.t, row.sourceSystem, row.sourceOrderId) then Refused(Store(s.t, ids), RefTaken)
    else Written(Store(s.t.(orders := s.t.orders[id := row]), ids), id)
  }

  ghost function InsertItem(s: Store, row: Item): (r: Inserted)
    requires Sound(s)
    ensures Sound(r.s) && NotBefore(s.ids, r.s.ids)
    ensures r.Refused? <==> row.order !in s.t.orders || (row.product.Some? && row.product.value !in s.t.products)
    ensures r.Refused? ==> r.s.t == s.t
    ensures r.s.ids == s.ids.(item := s.ids.item + 1)
    ensures r.Written? ==> r.id == s.ids.item && r.id !in s.t.items
                           && r.s.t == s.t.(items := s.t.items[r.id := row])
  {
    var id := s.ids.item;
    var ids := s.ids.(item := id + 1);
    if row.order !in s.t.orders then Refused(Store(s.t, ids), NoSuchOrder)
    else if row.product.Some? && row.product.value !in s.t.products then Refused(Store(s.t, ids), NoSuchProduct)
    else Written(Store(s.t.(items := s.t.items[id := row]), ids), id)
  }

  /** UPDATE of an order that keeps its source reference. */
  ghost function PutOrder(s: Store, id: nat, row: Order): (r: Store)
    requires Sound(s) && id in s.t.orders && row.customer in s.t.customers
    requires HasRef(row, s.t.orders[id].sourceSystem, s.t.orders[id].sourceOrderId)
    ensures Sound(r)
  {
    s.(t := s.t.(orders := s.t.orders[id := row]))
  }

  /** DELETE FROM order_items WHERE order_id = order. */
  function DeleteLines(s: Store, order: nat): (r: Store) {
    s.(t := s.t.(items := map i | i in s.t.items && s.t.items[i].order != order :: s.t.items[i]))
  }

  function AddAudit(s: Store, a: SyncAudit): Store {
    s.(t := s.t.(syncAudits := s.t.syncAudits + [a]))
  }

  // ---------------------------------------------------------------- facts about order lines

  lemma {:induction false} LinesUntouched(a: map<nat, Item>, b: map<nat, Item>, order: nat, hi: nat)
    requires forall i :: i < hi ==> ((i in a && a[i].order == order) <==> (i in b && b[i].order == order))
    requires forall i :: i < hi && i in a && a[i].order == order ==> i in b && a[i] == b[i]
    ensures LinesBelow(a, order, hi) == LinesBelow(b, order, hi)
  {
    if hi == 0 {
    } else {
      LinesUntouched(a, b, order, hi - 1);
    }
  }

  lemma {:induction false} NoLines(items: map<nat, Item>, order: nat, hi: nat)
    requires forall i :: i in items && i < hi ==> items[i].order != order
    ensures LinesBelow(items, order, hi) == []
  {
    if hi == 0 {
    } else {
      NoLines(items, order, hi - 1);
    }
  }

  /** Deleting an order's lines empties that order and leaves the lines of every other order alone. */
  lemma DeleteLinesEffect(s: Store, order: nat, other: nat)
    requires Sound(s)
    ensures Sound(DeleteLines(s, order))
    ensures Lines(DeleteLines(s, order), other) == if other == order then [] else Lines(s, other)
  {
    var r := DeleteLines(s, order);
    if other == order {
      NoLines(r.t.items, order, s.ids.item);
    } else {
      LinesUntouched(s.t.items, r.t.items, other, s.ids.item);
    }
  }

  lemma LinesGrow(items: map<nat, Item>, id: nat, row: Item, other: nat)
    ensures LinesBelow(items[id := row], other, id + 1) ==
            if other == row.order then LinesBelow(items, other, id) + [Line(row.product, row.quantity, row.unitPrice)]
            else LinesBelow(items, other, id)
  {
    LinesUntouched(items, items[id := row], other, id);
  }

  /** A written item becomes the last line of its order; other orders keep theirs. */
  lemma InsertItemEffect(s: Store, row: Item, other: nat)
    requires Sound(s) && InsertItem(s, row).Written?
    ensures Lines(InsertItem(s, row).s, other) ==
            if other == row.order then Lines(s, other) + [Line(row.product, row.quantity, row.unitPrice)]
            else Lines(s, other)
  {
    LinesGrow(s.t.items, s.ids.item, row, other);
  }
}
