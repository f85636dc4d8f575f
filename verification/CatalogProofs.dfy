/** What holds of the shared tables when requests interleave, and what holds in addition when
    they are served one after the other. */
module CatalogProofs {
  import opened Wrappers
  import opened Database
  import opened Normalization
  import opened OrderSync
  import opened SyncEffects
  import opened Catalog
  import opened CatalogWrites

  // ---------------------------------------------------------------- products under interleaving

  lemma RemovedProduct(s: Store, p: Plan, product: nat)
    requires Sound(s) && product in s.t.products && product !in Write(s, p).s.t.products
    ensures p == RemoveProduct(product) && !HasOrderItem(s.t, product)
  {
    match p
    case RunSync(e, cache, batch, c) => RunOnlyAdds(e, Batch(Work(s, cache), EMPTY_RESULT), batch, c);
    case _ =>
  }

  lemma TurnKeepsProducts(s: Store, p: Plan)
    requires Sound(s) && p.RunSync? && p.batch != []
    ensures Extends(s.t.products, Turn(s, p).s.t.products)
  {
    TurnOnlyAdds(p.e, Batch(Work(s, p.cache), EMPTY_RESULT), p.batch[0], p.correlationId);
  }

  /** In any interleaving a product disappears only when a deletion planned for it is carried out,
      and never while an order item names it: then it can only be archived. */
  lemma UsedProductStays(a: World, b: World, product: nat)
    requires Sound(a.s) && Next(a, b) && product in a.s.t.products
    ensures HasOrderItem(a.s.t, product) ==> product in b.s.t.products
    ensures product !in b.s.t.products ==> exists tx :: tx in a.open && a.open[tx] == RemoveProduct(product)
  {
    if tx :| Advances(a, b, tx) {
      TurnKeepsProducts(a.s, a.open[tx]);
    } else if product !in b.s.t.products {
      var tx :| Ends(a, b, tx);
      RemovedProduct(a.s, a.open[tx], product);
    }
  }

  /** Over a whole run: a product that some order item names in every state is there to the end. */
  lemma {:induction false} UsedProductAlwaysThere(worlds: seq<World>, product: nat, i: nat)
    requires Run(worlds) && i < |worlds| && product in worlds[0].s.t.products
    requires forall j :: 0 <= j < i ==> HasOrderItem(worlds[j].s.t, product)
    ensures product in worlds[i].s.t.products
  {
    if i > 0 {
      UsedProductAlwaysThere(worlds, product, i - 1);
      AlwaysSound(worlds, i - 1);
      assert worlds[i - 1 + 1] == worlds[i];
      UsedProductStays(worlds[i - 1], worlds[i], product);
    }
  }

  // ---------------------------------------------------------------- races, by constraint

  /** Two creations of the same SKU may both find it free; the second to write is rolled back. */
  lemma SameSkuRace(s: Store, f: ProductForm, g: ProductForm)
    requires Sound(s) && f.sku == g.sku
    requires Read(s, CreateProduct(f)).AddProduct? && Read(s, CreateProduct(g)).AddProduct?
    ensures var first := Write(s, Read(s, CreateProduct(f)));
            var second := Write(first.s, Read(s, CreateProduct(g)));
            && first.Committed? && second == RolledBack(second.s, SkuTaken) && second.s.t == first.s.t
  {
    var first := Write(s, Read(s, CreateProduct(f)));
    assert first.s.t.products[s.ids.product].sku == g.sku;
  }

  /** A shop deleted after a product was assigned to it behind its back takes the assignment along:
      the product stays, without a shop. */
  lemma AssignedMeanwhile(s: Store, id: nat, f: ProductForm)
    requires Sound(s) && Read(s, DeleteShop(id)).RemoveShop?
    requires Read(s, CreateProduct(f)).AddProduct? && f.shop == Some(id)
    ensures var made := Write(s, Read(s, CreateProduct(f)));
            var after := Write(made.s, Read(s, DeleteShop(id)));
            && made.Committed? && made.response == Made(s.ids.product)
            && after.Committed? && id !in after.s.t.shops
            && s.ids.product in after.s.t.products
            && after.s.t.products[s.ids.product].shop == None
            && HoldsProduct(after.s.t.products[s.ids.product].(shop := Some(id)), f)
  {
    assert Read(s, CreateProduct(f)) == AddProduct(ProductRow(f)) && Read(s, DeleteShop(id)) == RemoveShop(id);
    var made := FromInsert(InsertProduct(s, ProductRow(f)));
    assert Write(s, AddProduct(ProductRow(f))) == made;
    RemovedWithAssignment(made.s, id, s.ids.product, ProductRow(f));
  }

  lemma RemovedWithAssignment(s: Store, id: nat, product: nat, row: Product)
    requires Sound(s) && product in s.t.products && s.t.products[product] == row && row.shop == Some(id)
    ensures var r := Write(s, RemoveShop(id));
            && r.Committed? && id !in r.s.t.shops
            && product in r.s.t.products && r.s.t.products[product] == row.(shop := None)
  {
    assert HasProduct(s.t, id);
  }

  // ---------------------------------------------------------------- orders

  lemma AppendFirst<T>(a: seq<T>, b: seq<T>)
    requires b != []
    ensures a + [b[0]] + b[1..] == a + b
  {
  }

  lemma {:induction false} LinesOfInsert(s: Store, order: nat, lines: seq<Line>, other: nat)
    requires Sound(s) && order in s.t.orders && InsertLines(s, order, lines).Written?
    ensures Lines(InsertLines(s, order, lines).s, other) ==
            if other == order then Lines(s, order) + lines else Lines(s, other)
    decreases |lines|
  {
    if lines == [] {
      assert Lines(s, order) + lines == Lines(s, order);
    } else {
      var row := Item(order, lines[0].product, lines[0].quantity, lines[0].unitPrice);
      InsertItemEffect(s, row, other);
      LinesOfInsert(InsertItem(s, row).s, order, lines[1..], other);
      AppendFirst(Lines(s, order), lines);
    }
  }

  /** What an item of an order request must be stored as: its own positive quantity; a known product
      under its own key and at its catalogue price; anything else without a product, at the price that
      the request gives. */
  ghost predicate ChargedFor(products: map<nat, Product>, item: ItemForm, line: Line) {
    && line.quantity == item.quantity > 0
    && if item.product != 0 && item.product in products
       then line.product == Some(item.product) && line.unitPrice == products[item.product].price
       else line.product == None && line.unitPrice == item.unitPrice
  }

  lemma {:induction false} PricedLinesCharged(products: map<nat, Product>, items: seq<ItemForm>, k: nat)
    requires k < |items| && PricedLines(products, items).Some?
    ensures ChargedFor(products, items[k], PricedLines(products, items).value[k])
  {
    if k < |items| - 1 {
      PricedLinesCharged(products, items[..|items| - 1], k);
    }
  }

  /** Reading an order request yields nothing exactly when some quantity is not positive. */
  lemma {:induction false} PricedLinesExact(products: map<nat, Product>, items: seq<ItemForm>)
    ensures PricedLines(products, items).Some? <==> forall k :: 0 <= k < |items| ==> items[k].quantity > 0
  {
    if items == [] {
    } else {
      PricedLinesExact(products, items[..|items| - 1]);
      assert forall k :: 0 <= k < |items| - 1 ==> items[..|items| - 1][k] == items[k];
      assert items[|items| - 1].quantity > 0 <==> forall k :: |items| - 1 <= k < |items| ==> items[k].quantity > 0;
    }
  }

  lemma NoLinesYet(s: Store, order: nat)
    requires Sound(s) && order !in s.t.orders
    ensures Lines(s, order) == []
  {
    NoLines(s.t.items, order, s.ids.item);
  }

  lemma AddedOrder(s: Store, row: Order, lines: seq<Line>, other: nat)
    requires Sound(s) && WriteAddOrder(s, row, lines).Committed?
    ensures var r := WriteAddOrder(s, row, lines);
            && r.response.Made? && r.response.id !in s.t.orders
            && r.s.t.orders == s.t.orders[r.response.id := row]
            && Lines(r.s, r.response.id) == lines
            && (other != r.response.id ==> Lines(r.s, other) == Lines(s, other))
  {
    var o := InsertOrder(s, row);
    LinesOfInsert(o.s, o.id, lines, other);
    LinesOfInsert(o.s, o.id, lines, o.id);
    NoLinesYet(s, o.id);
    assert [] + lines == lines;
  }

  /** The items that an order request asks for: its list, or its lone item, of which it asks for one when
      it does not say how many. */
  predicate Requested(f: OrderForm, items: seq<ItemForm>) {
    && (f.items != [] ==> items == f.items)
    && (f.items == [] && f.loneItem.product == 0 ==> items == [])
    && (f.items == [] && f.loneItem.product != 0 ==>
          items == [ItemForm(f.loneItem.product, if f.loneItem.quantity == 0 then 1 else f.loneItem.quantity,
                             f.loneItem.unitPrice)])
  }

  /** The columns of an order row that a request stores, apart from the total. */
  predicate PostedRow(row: Order, f: OrderForm, email: string) {
    && row.customer == f.customer && row.status == "pending" && row.backlogStatus == "backlog"
    && row.syncStatus == "local" && row.syncError == None && row.payload == None && row.lastSynced == None
    && row.notes == f.notes && row.shippingAddress == f.shippingAddress && row.sourceEmail == email
    && row.sourceSystem == (if f.sourceSystem != "" then f.sourceSystem else "enterprise-crm")
    && row.sourceOrderId == (if f.sourceOrderId != "" then f.sourceOrderId else f.generatedRef)
    && row.correlationId == f.correlationId && row.createdAt == f.now
  }

  /** The money of an order. However long ago the request read the catalogue, the total that is
      stored equals the sum over the stored lines; item by item, in order, a known product is stored
      under its key and charged at the catalogue price that was read; the other columns come from the
      request; and no other order and no other order's lines change. */
  lemma OrderTotal(earlier: Store, s: Store, f: OrderForm)
    requires Sound(s) && Read(earlier, CreateOrder(f)).AddOrder?
    requires Write(s, Read(earlier, CreateOrder(f))).Committed?
    ensures Requested(f, FormItems(f))
    ensures var r := Write(s, Read(earlier, CreateOrder(f)));
            && r.response.Made? && r.response.id !in s.t.orders && r.response.id in r.s.t.orders
            && f.customer in earlier.t.customers
            && PostedRow(r.s.t.orders[r.response.id], f, earlier.t.customers[f.customer].email)
            && r.s.t == s.t.(items := r.s.t.items,
                             orders := s.t.orders[r.response.id := r.s.t.orders[r.response.id]])
            && r.s.t.orders[r.response.id].total == Total(Lines(r.s, r.response.id))
            && |Lines(r.s, r.response.id)| == |FormItems(f)|
            && (forall k :: 0 <= k < |FormItems(f)| ==>
                  ChargedFor(earlier.t.products, FormItems(f)[k], Lines(r.s, r.response.id)[k]))
            && (forall other :: other != r.response.id ==> Lines(r.s, other) == Lines(s, other))
  {
    var plan := Read(earlier, CreateOrder(f));
    var r := Write(s, plan);
    forall other | other != r.response.id
      ensures Lines(r.s, other) == Lines(s, other)
    {
      AddedOrder(s, plan.order, plan.lines, other);
    }
    AddedOrder(s, plan.order, plan.lines, r.response.id);
    forall k | 0 <= k < |FormItems(f)|
      ensures ChargedFor(earlier.t.products, FormItems(f)[k], plan.lines[k])
    {
      PricedLinesCharged(earlier.t.products, FormItems(f), k);
    }
  }

  lemma {:induction false} LiveLinesGoIn(s: Store, order: nat, lines: seq<Line>)
    requires Sound(s) && order in s.t.orders
    requires forall k :: 0 <= k < |lines| && lines[k].product.Some? ==> lines[k].product.value in s.t.products
    ensures InsertLines(s, order, lines).Written?
    decreases |lines|
  {
    if lines == [] {
    } else {
      var r := InsertItem(s, Item(order, lines[0].product, lines[0].quantity, lines[0].unitPrice));
      assert forall k :: 0 <= k < |lines[1..]| ==> lines[1..][k] == lines[k + 1];
      LiveLinesGoIn(r.s, order, lines[1..]);
    }
  }

  // ---------------------------------------------------------------- one request after the other

  ghost function Serve(s: Store, r: Request): Written
    requires Sound(s)
  {
    Write(s, Read(s, r))
  }

  lemma AddRefusedIff(s: Store, row: Order, lines: seq<Line>)
    requires Sound(s) && row.customer in s.t.customers
    requires forall k :: 0 <= k < |lines| && lines[k].product.Some? ==> lines[k].product.value in s.t.products
    ensures WriteAddOrder(s, row, lines).RolledBack? <==> RefInUse(s.t, row.sourceSystem, row.sourceOrderId)
    ensures WriteAddOrder(s, row, lines).RolledBack? ==> WriteAddOrder(s, row, lines).error == RefTaken
  {
    var o := InsertOrder(s, row);
    if o.Written? {
      LiveLinesGoIn(o.s, o.id, lines);
    }
  }

  lemma PlannedOrder(t: Tables, f: OrderForm)
    requires PlanCreateOrder(t, f).AddOrder?
    ensures var plan := PlanCreateOrder(t, f);
            && plan.order.customer in t.customers
            && plan.order.sourceSystem == FormSystem(f) && plan.order.sourceOrderId == FormRef(f)
            && forall k :: 0 <= k < |plan.lines| && plan.lines[k].product.Some? ==>
                 plan.lines[k].product.value in t.products
  {
    var plan := PlanCreateOrder(t, f);
    forall k | 0 <= k < |plan.lines| && plan.lines[k].product.Some?
      ensures plan.lines[k].product.value in t.products
    {
      PricedLinesCharged(t.products, FormItems(f), k);
    }
  }

  lemma ServedOrder(s: Store, f: OrderForm)
    requires Sound(s) && PlanCreateOrder(s.t, f).AddOrder?
    ensures Serve(s, CreateOrder(f)).RolledBack? <==> RefInUse(s.t, FormSystem(f), FormRef(f))
    ensures Serve(s, CreateOrder(f)).RolledBack? ==> Serve(s, CreateOrder(f)).error == RefTaken
  {
    PlannedOrder(s.t, f);
    AddRefusedIff(s, PlanCreateOrder(s.t, f).order, PlanCreateOrder(s.t, f).lines);
    ServedAsAdded(s, f);
  }

  lemma ReadsPlan(s: Store, f: OrderForm)
    ensures Read(s, CreateOrder(f)) == PlanCreateOrder(s.t, f)
  {
  }

  lemma WritesAdded(s: Store, p: Plan)
    requires Sound(s) && p.AddOrder?
    ensures Write(s, p) == WriteAddOrder(s, p.order, p.lines)
  {
  }

  lemma ServedAsAdded(s: Store, f: OrderForm)
    requires Sound(s) && PlanCreateOrder(s.t, f).AddOrder?
    ensures Serve(s, CreateOrder(f)) == WriteAddOrder(s, PlanCreateOrder(s.t, f).order, PlanCreateOrder(s.t, f).lines)
  {
    ReadsPlan(s, f);
    WritesAdded(s, PlanCreateOrder(s.t, f));
  }

  /** Posting an order, exactly: refused for an unknown customer, for a quantity that is not positive, and
      for a source reference in use; stored otherwise. */
  lemma CreateOrderExact(s: Store, f: OrderForm)
    requires Sound(s)
    ensures var r := Serve(s, CreateOrder(f));
            var known := f.customer != 0 && f.customer in s.t.customers;
            var countable := forall k :: 0 <= k < |FormItems(f)| ==> FormItems(f)[k].quantity > 0;
            var used := RefInUse(s.t, if f.sourceSystem != "" then f.sourceSystem else "enterprise-crm",
                                 if f.sourceOrderId != "" then f.sourceOrderId else f.generatedRef);
            && Requested(f, FormItems(f))
            && (!known ==> r == Committed(s, NotFound))
            && (known && !countable ==> r == Committed(s, BadQuantity))
            && (known && countable && used ==> r.RolledBack? && r.error == RefTaken && r.s.t == s.t)
            && (known && countable && !used ==> r.Committed? && r.response.Made?)
  {
    PricedLinesExact(s.t.products, FormItems(f));
    var plan := PlanCreateOrder(s.t, f);
    ReadsPlan(s, f);
    if plan.AddOrder? {
      ServedOrder(s, f);
      ServedAsAdded(s, f);
      MadeOrRefused(s, plan.order, plan.lines);
    }
  }

  lemma MadeOrRefused(s: Store, row: Order, lines: seq<Line>)
    requires Sound(s)
    ensures var r := WriteAddOrder(s, row, lines); r.Committed? ==> r.response.Made?
    ensures var r := WriteAddOrder(s, row, lines); r.RolledBack? ==> r.s.t == s.t
  {
  }

  /** Served one after the other, no request is ever rolled back by a constraint, because each one
      checks first what its writes need; with one exception, which has no check of its own: an order
      whose source reference is in use. */
  lemma SerialNeverCrashes(s: Store, r: Request)
    requires Sound(s)
    ensures Serve(s, r).RolledBack? <==>
              r.CreateOrder? && Read(s, r).AddOrder? && RefInUse(s.t, FormSystem(r.order), FormRef(r.order))
    ensures Serve(s, r).RolledBack? ==> Serve(s, r).error == RefTaken && Serve(s, r).s.t == s.t
  {
    match r
    case CreateOrder(f) =>
      if Read(s, r).AddOrder? { ServedOrder(s, f); }
    case UpdateProduct(id, f) => UpdateProductExact(s, id, f);
    case DeleteProduct(id) => DeleteProductExact(s, id);
    case CreateProduct(f) => CreateProductExact(s, f);
    case CreateShop(f) => CreateShopExact(s, f);
    case UpdateShop(id, f) => UpdateShopExact(s, id, f);
    case DeleteShop(id) => DeleteShopExact(s, id);
    case SetStatus(id, status) => SetStatusExact(s, id, status);
    case SyncOrders(_, _, _) =>
  }

  lemma MergedOntoItself(loaded: Product, wanted: Product)
    ensures MergeProduct(loaded, wanted, loaded) == wanted
  {
  }

  /** Creating a product, exactly: a row with the values of the form under a new key, unless some
      product has the SKU or the shop does not exist. */
  lemma CreateProductExact(s: Store, f: ProductForm)
    requires Sound(s)
    ensures var r := Serve(s, CreateProduct(f));
            && r.Committed?
            && (r.response == Duplicate <==> SkuInUse(s.t, f.sku))
            && (r.response == NoShop <==> !SkuInUse(s.t, f.sku) && NamesMissingShop(s.t, f.shop))
            && (r.response.Made? <==> !SkuInUse(s.t, f.sku) && !NamesMissingShop(s.t, f.shop))
            && (!r.response.Made? ==> r.s == s)
            && (r.response.Made? ==>
                 && r.response.id !in s.t.products && r.response.id in r.s.t.products
                 && HoldsProduct(r.s.t.products[r.response.id], f)
                 && r.s.t == s.t.(products := s.t.products[r.response.id := r.s.t.products[r.response.id]]))
  {
  }

  /** Changing a product, exactly: its row becomes the form, unless another product has the SKU or the
      shop does not exist; nothing else in the tables changes. */
  lemma UpdateProductExact(s: Store, id: nat, f: ProductForm)
    requires Sound(s)
    ensures var r := Serve(s, UpdateProduct(id, f));
            && r.Committed? && r.s.ids == s.ids
            && (r.response == NotFound <==> id !in s.t.products)
            && (r.response == Duplicate <==> id in s.t.products && SkuElsewhere(s.t, f.sku, id))
            && (r.response == Changed <==>
                  id in s.t.products && !SkuElsewhere(s.t, f.sku, id) && !NamesMissingShop(s.t, f.shop))
            && (r.response != Changed ==> r.s.t == s.t)
            && (r.response == Changed ==>
                 && id in r.s.t.products && HoldsProduct(r.s.t.products[id], f)
                 && r.s.t == s.t.(products := s.t.products[id := r.s.t.products[id]]))
  {
    if Read(s, UpdateProduct(id, f)).EditProduct? {
      UpdateInTime(s, id, f);
    }
  }

  /** Creating a shop, exactly. */
  lemma CreateShopExact(s: Store, f: ShopForm)
    requires Sound(s)
    ensures var r := Serve(s, CreateShop(f));
            && r.Committed?
            && (r.response == Duplicate <==> SlugInUse(s.t, f.slug))
            && (r.response.Made? <==> !SlugInUse(s.t, f.slug))
            && (!r.response.Made? ==> r.s == s)
            && (r.response.Made? ==>
                 && r.response.id !in s.t.shops && r.response.id in r.s.t.shops
                 && HoldsShop(r.s.t.shops[r.response.id], f)
                 && r.s.t.shops[r.response.id].contact == Contact("", "", "", "", true)
                 && r.s.t == s.t.(shops := s.t.shops[r.response.id := r.s.t.shops[r.response.id]]))
  {
  }

  /** A sync that is served at once is the run over a fresh product lookup, and replies with its result. */
  lemma ServedSync(s: Store, e: Env, batch: seq<Normalized>, correlationId: string)
    requires Sound(s)
    ensures var run := Sync(e, s, batch, correlationId);
            Serve(s, SyncOrders(e, batch, correlationId)) == Committed(run.w.s, Synced(run.result))
  {
    assert Read(s, SyncOrders(e, batch, correlationId)) == RunSync(e, Lookup(e, s), batch, correlationId);
    WritesSync(s, e, Lookup(e, s), batch, correlationId);
  }

  lemma WritesSync(s: Store, e: Env, cache: map<string, nat>, batch: seq<Normalized>, c: string)
    requires Sound(s)
    ensures Write(s, RunSync(e, cache, batch, c)) == WriteSync(s, e, cache, batch, c)
  {
  }

  /** Deleting a product, exactly: unknown, archived when an order item names it, removed otherwise;
      nothing else in the tables changes. */
  lemma DeleteProductExact(s: Store, id: nat)
    requires Sound(s)
    ensures var r := Serve(s, DeleteProduct(id));
            && r.Committed? && r.s.ids == s.ids
            && (r.response == NotFound <==> id !in s.t.products)
            && (r.response == Archived <==> id in s.t.products && HasOrderItem(s.t, id))
            && (r.response == Deleted <==> id in s.t.products && !HasOrderItem(s.t, id))
            && r.s.t == s.t.(products :=
                 if r.response == Archived then s.t.products[id := s.t.products[id].(isActive := false)]
                 else s.t.products - {id})
  {
    if id !in s.t.products {
      assert s.t.products - {id} == s.t.products;
    } else if HasOrderItem(s.t, id) {
      ArchiveExact(s, id);
    }
  }

  lemma ArchiveExact(s: Store, id: nat)
    requires Sound(s) && id in s.t.products
    ensures var archived := s.t.products[id].(isActive := false);
            WriteEditProduct(s, id, s.t.products[id], archived, Archived)
              == Committed(s.(t := s.t.(products := s.t.products[id := archived])), Archived)
  {
    var archived := s.t.products[id].(isActive := false);
    MergedOntoItself(s.t.products[id], archived);
    if s.t.products[id] == archived { assert s.t.products[id := archived] == s.t.products; }
  }

  /** Deleting a shop, exactly: it goes when it is known and no product is assigned to it, and
      nothing else in the tables changes. */
  lemma DeleteShopExact(s: Store, id: nat)
    requires Sound(s)
    ensures var r := Serve(s, DeleteShop(id));
            && r.Committed? && r.s.ids == s.ids
            && (r.response == ShopInUse <==> id in s.t.shops && HasProduct(s.t, id))
            && (r.response == Deleted <==> id in s.t.shops && !HasProduct(s.t, id))
            && r.s.t == s.t.(shops := if r.response == Deleted then s.t.shops - {id} else s.t.shops)
  {
  }

  /** Changing a shop, exactly: its row takes the values of the form and keeps its contact columns, unless
      another shop has the slug. */
  lemma UpdateShopExact(s: Store, id: nat, f: ShopForm)
    requires Sound(s)
    ensures var r := Serve(s, UpdateShop(id, f));
            && r.Committed? && r.s.ids == s.ids
            && (r.response == NotFound <==> id !in s.t.shops)
            && (r.response == Changed <==> id in s.t.shops && !SlugElsewhere(s.t, f.slug, id))
            && (r.response == Duplicate <==> id in s.t.shops && SlugElsewhere(s.t, f.slug, id))
            && (r.response != Changed ==> r.s.t == s.t)
            && (r.response == Changed ==>
                 && id in r.s.t.shops && HoldsShop(r.s.t.shops[id], f)
                 && r.s.t.shops[id].contact == s.t.shops[id].contact
                 && r.s.t == s.t.(shops := s.t.shops[id := r.s.t.shops[id]]))
  {
    if id in s.t.shops && !SlugElsewhere(s.t, f.slug, id) {
      var row := ShopRow(f, s.t.shops[id].contact);
      assert MergeShop(s.t.shops[id], row, s.t.shops[id]) == row;
      if s.t.shops[id] == row { assert s.t.shops[id := row] == s.t.shops; }
    }
  }

  /** Setting a status changes the status and the backlog mark of one order, and nothing else. */
  lemma SetStatusExact(s: Store, id: nat, status: string)
    requires Sound(s)
    ensures var r := Serve(s, SetStatus(id, status));
            && r.Committed? && r.s.ids == s.ids
            && (r.response == NotFound <==> id !in s.t.orders)
            && (r.response == Changed <==> id in s.t.orders)
            && (id in s.t.orders ==>
                  r.s.t == s.t.(orders := s.t.orders[id := s.t.orders[id].(
                    status := status,
                    backlogStatus := if status in {"pending", "processing", "queued"} then "backlog"
                                     else "current")]))
            && (id !in s.t.orders ==> r.s.t == s.t)
  {
    if id in s.t.orders {
      var o := s.t.orders[id];
      assert MergeStatus(o, WithStatus(o, status), o) == WithStatus(o, status);
      if o == WithStatus(o, status) { assert s.t.orders[id := o] == s.t.orders; }
    }
  }

  /** A deletion that found no order item, overtaken by an order for the product, is rolled back:
      the product stays as it was, where the same requests in turn would have archived it. */
  lemma OrderedMeanwhile(s: Store, product: nat, f: OrderForm)
    requires Sound(s) && Read(s, DeleteProduct(product)) == RemoveProduct(product)
    requires Read(s, CreateOrder(f)).AddOrder? && Serve(s, CreateOrder(f)).Committed?
    requires product != 0 && FormItems(f) != [] && FormItems(f)[0].product == product
    ensures var made := Serve(s, CreateOrder(f));
            && Write(made.s, Read(s, DeleteProduct(product))) == RolledBack(made.s, StillReferenced)
            && made.s.t.products[product] == s.t.products[product]
            && Serve(made.s, DeleteProduct(product)).response == Archived
  {
    var made := Serve(s, CreateOrder(f));
    var plan := PlanCreateOrder(s.t, f);
    ServedAsAdded(s, f);
    AddedOrder(s, plan.order, plan.lines, made.response.id);
    FirstLine(s.t.products, FormItems(f));
    LineIsItem(made.s.t.items, made.response.id, made.s.ids.item, 0);
    DeleteProductExact(made.s, product);
  }

  lemma {:induction false} FirstLine(products: map<nat, Product>, items: seq<ItemForm>)
    requires items != [] && PricedLines(products, items).Some?
    ensures PricedLines(products, items).value[0] == PricedLine(products, items[0])
  {
    if |items| > 1 {
      FirstLine(products, items[..|items| - 1]);
    }
  }

  /** Every line comes from an item row. */
  lemma {:induction false} LineIsItem(items: map<nat, Item>, order: nat, hi: nat, k: nat)
    requires k < |LinesBelow(items, order, hi)|
    ensures exists i :: i in items && items[i].product == LinesBelow(items, order, hi)[k].product
  {
    if k < |LinesBelow(items, order, hi - 1)| {
      LineIsItem(items, order, hi - 1, k);
    } else {
      assert items[hi - 1].product == LinesBelow(items, order, hi)[k].product;
    }
  }

  // ---------------------------------------------------------------- source references

  /** In every state of every run there is at most one order per source reference. */
  lemma OneOrderPerReference(worlds: seq<World>, i: nat, a: nat, b: nat)
    requires Run(worlds) && i < |worlds|
    requires a in worlds[i].s.t.orders && b in worlds[i].s.t.orders
    requires worlds[i].s.t.orders[a].sourceSystem == worlds[i].s.t.orders[b].sourceSystem
    requires worlds[i].s.t.orders[a].sourceOrderId == worlds[i].s.t.orders[b].sourceOrderId
    ensures a == b
  {
    AlwaysSound(worlds, i);
    assert HasRef(worlds[i].s.t.orders[a], worlds[i].s.t.orders[b].sourceSystem, worlds[i].s.t.orders[b].sourceOrderId);
  }

  /** An order request that writes while its reference is in use, whenever it read, leaves the tables
      unchanged and makes nothing. */
  lemma ReferenceInUse(earlier: Store, s: Store, g: OrderForm)
    requires Sound(s) && RefInUse(s.t, FormSystem(g), FormRef(g))
    ensures var r := Write(s, Read(earlier, CreateOrder(g))); r.s.t == s.t && !(r.Committed? && r.response.Made?)
  {
    ReadsPlan(earlier, g);
    var plan := PlanCreateOrder(earlier.t, g);
    if plan.AddOrder? {
      WritesAdded(s, plan);
      AddRefused(s, plan.order, plan.lines);
    }
  }

  lemma AddRefused(s: Store, row: Order, lines: seq<Line>)
    requires Sound(s) && RefInUse(s.t, row.sourceSystem, row.sourceOrderId)
    ensures WriteAddOrder(s, row, lines).RolledBack? && WriteAddOrder(s, row, lines).s.t == s.t
  {
  }

  lemma PullUpdates(e: Env, w: Work, n: Normalized, c: string, o: nat)
    requires Sound(w.s) && o in w.s.t.orders && HasRef(w.s.t.orders[o], e.source, n.sourceOrderId)
    requires UpsertOne(e, w, n, c).Applied?
    ensures var u := UpsertOne(e, w, n, c);
            u.action == Updated && u.order == o && u.w.s.t.orders.Keys == w.s.t.orders.Keys
  {
    AppliedFrame(e, w, n, c, o);
  }

  /** Every order is still there, under the source reference it had. */
  ghost predicate OrdersKept(a: map<nat, Order>, b: map<nat, Order>) {
    forall o :: o in a ==> o in b && HasRef(b[o], a[o].sourceSystem, a[o].sourceOrderId)
  }

  lemma StatusKeepsOrders(s: Store, id: nat, loaded: Order, wanted: Order)
    requires Sound(s)
    ensures OrdersKept(s.t.orders, WriteEditStatus(s, id, loaded, wanted).s.t.orders)
  {
    if loaded != wanted && id in s.t.orders {
      ReplacedKeepsOrders(s.t.orders, id, MergeStatus(loaded, wanted, s.t.orders[id]));
    } else {
      SameOrdersKept(s.t.orders);
    }
  }

  lemma ReplacedKeepsOrders(orders: map<nat, Order>, id: nat, row: Order)
    requires id in orders && HasRef(row, orders[id].sourceSystem, orders[id].sourceOrderId)
    ensures OrdersKept(orders, orders[id := row])
  {
  }

  lemma AddKeepsOrders(s: Store, row: Order, lines: seq<Line>)
    requires Sound(s)
    ensures OrdersKept(s.t.orders, WriteAddOrder(s, row, lines).s.t.orders)
  {
    if WriteAddOrder(s, row, lines).Committed? {
      AddedOrder(s, row, lines, 0);
    }
  }

  lemma SameOrdersKept(orders: map<nat, Order>)
    ensures OrdersKept(orders, orders)
  {
  }

  lemma WriteKeepsOrders(s: Store, p: Plan)
    requires Sound(s)
    ensures OrdersKept(s.t.orders, Write(s, p).s.t.orders)
  {
    match p
    case RunSync(e, cache, batch, c) => SyncKeepsOrders(s, e, cache, batch, c);
    case AddOrder(row, lines) => AddKeepsOrders(s, row, lines);
    case EditStatus(id, loaded, wanted) => StatusKeepsOrders(s, id, loaded, wanted);
    case _ =>
      assert Write(s, p).s.t.orders == s.t.orders;
      SameOrdersKept(s.t.orders);
  }

  lemma OnlyAddsKeepsOrders(a: Tables, b: Tables)
    requires OnlyAdds(a, b)
    ensures OrdersKept(a.orders, b.orders)
  {
    forall o | o in a.orders
      ensures o in b.orders && HasRef(b.orders[o], a.orders[o].sourceSystem, a.orders[o].sourceOrderId)
    {
      assert SameIdentity(a.orders[o], b.orders[o]);
    }
  }

  lemma SyncKeepsOrders(s: Store, e: Env, cache: map<string, nat>, batch: seq<Normalized>, c: string)
    requires Sound(s)
    ensures OrdersKept(s.t.orders, WriteSync(s, e, cache, batch, c).s.t.orders)
  {
    var b := Batch(Work(s, cache), EMPTY_RESULT);
    RunOnlyAdds(e, b, batch, c);
    OnlyAddsKeepsOrders(s.t, RunBatch(e, b, batch, c).w.s.t);
  }

  lemma TurnKeepsOrders(s: Store, p: Plan)
    requires Sound(s) && p.RunSync? && p.batch != []
    ensures OrdersKept(s.t.orders, Turn(s, p).s.t.orders)
  {
    TurnOnlyAdds(p.e, Batch(Work(s, p.cache), EMPTY_RESULT), p.batch[0], p.correlationId);
    OnlyAddsKeepsOrders(s.t, Turn(s, p).s.t);
  }

  lemma NextKeepsOrders(a: World, b: World)
    requires Sound(a.s) && Next(a, b)
    ensures OrdersKept(a.s.t.orders, b.s.t.orders)
  {
    if tx :| Advances(a, b, tx) {
      TurnKeepsOrders(a.s, a.open[tx]);
    } else if tx :| Ends(a, b, tx) {
      WriteKeepsOrders(a.s, a.open[tx]);
    }
  }

  lemma OrdersKeptTransitive(a: map<nat, Order>, b: map<nat, Order>, c: map<nat, Order>)
    requires OrdersKept(a, b) && OrdersKept(b, c)
    ensures OrdersKept(a, c)
  {
  }

  /** Over any interleaving an order stays, and stays under its source reference. */
  lemma {:induction false} OrderKeepsReference(worlds: seq<World>, i: nat, j: nat)
    requires Run(worlds) && i <= j < |worlds|
    ensures OrdersKept(worlds[i].s.t.orders, worlds[j].s.t.orders)
    decreases j
  {
    if i < j {
      OrderKeepsReference(worlds, i, j - 1);
      AlwaysSound(worlds, j - 1);
      assert worlds[j - 1 + 1] == worlds[j];
      NextKeepsOrders(worlds[j - 1], worlds[j]);
      OrdersKeptTransitive(worlds[i].s.t.orders, worlds[j - 1].s.t.orders, worlds[j].s.t.orders);
    }
  }

  /** A request for an order has committed in the step from `worlds[i]` to the next world. */
  ghost predicate PostedAt(worlds: seq<World>, i: nat, earlier: Store, f: OrderForm)
    requires i + 1 < |worlds|
  {
    && Sound(worlds[i].s)
    && var r := Write(worlds[i].s, Read(earlier, CreateOrder(f)));
       r.Committed? && r.response.Made? && worlds[i + 1].s == r.s
  }

  /** The key under which that request stored its order. */
  ghost function PostedKey(worlds: seq<World>, i: nat, earlier: Store, f: OrderForm): nat
    requires i + 1 < |worlds| && PostedAt(worlds, i, earlier, f)
  {
    Write(worlds[i].s, Read(earlier, CreateOrder(f))).response.id
  }

  lemma AddedReference(s: Store, row: Order, lines: seq<Line>)
    requires Sound(s) && WriteAddOrder(s, row, lines).Committed?
    ensures var r := WriteAddOrder(s, row, lines);
            && r.response.Made? && r.response.id in r.s.t.orders
            && HasRef(r.s.t.orders[r.response.id], row.sourceSystem, row.sourceOrderId)
  {
    AddedOrder(s, row, lines, 0);
  }

  lemma PostedReference(earlier: Store, s: Store, f: OrderForm)
    requires Sound(s) && Write(s, Read(earlier, CreateOrder(f))).Committed?
    requires Write(s, Read(earlier, CreateOrder(f))).response.Made?
    ensures var r := Write(s, Read(earlier, CreateOrder(f)));
            r.response.id in r.s.t.orders && HasRef(r.s.t.orders[r.response.id], FormSystem(f), FormRef(f))
  {
    ReadsPlan(earlier, f);
    var plan := PlanCreateOrder(earlier.t, f);
    WritesAdded(s, plan);
    AddedReference(s, plan.order, plan.lines);
  }

  /** From the post on, whatever else runs, its order is there under its reference. */
  lemma PostedStays(worlds: seq<World>, i: nat, j: nat, earlier: Store, f: OrderForm)
    requires Run(worlds) && i < j < |worlds| && PostedAt(worlds, i, earlier, f)
    ensures var o := PostedKey(worlds, i, earlier, f);
            o in worlds[j].s.t.orders && HasRef(worlds[j].s.t.orders[o], FormSystem(f), FormRef(f))
  {
    PostedReference(earlier, worlds[i].s, f);
    OrderKeepsReference(worlds, i + 1, j);
  }

  /** Posting an order again under the reference of one that was stored leaves the tables unchanged,
      at any later point of any interleaving, whenever the second request read and whatever else it says. */
  lemma RepeatedPost(worlds: seq<World>, i: nat, j: nat, earlier: Store, f: OrderForm, read: Store, g: OrderForm)
    requires Run(worlds) && i < j < |worlds| && PostedAt(worlds, i, earlier, f)
    requires FormSystem(g) == FormSystem(f) && FormRef(g) == FormRef(f)
    ensures Sound(worlds[j].s)
    ensures var again := Write(worlds[j].s, Read(read, CreateOrder(g)));
            again.s.t == worlds[j].s.t && !(again.Committed? && again.response.Made?)
  {
    AlwaysSound(worlds, j);
    PostedStays(worlds, i, j, earlier, f);
    ReferenceInUse(read, worlds[j].s, g);
  }

  /** What the sync works on when it has come to its `done`th order: `done` orders of a batch that it
      began on `s`. */
  ghost function PullingAfter(s: Store, e: Env, cache: map<string, nat>, done: seq<Normalized>, c: string): (w: Work)
    requires Sound(s)
    ensures Sound(w.s)
  {
    RunBatch(e, Batch(Work(s, cache), EMPTY_RESULT), done, c).w
  }

  lemma PulledStays(s: Store, e: Env, cache: map<string, nat>, done: seq<Normalized>, c: string, o: nat)
    requires Sound(s) && o in s.t.orders
    ensures var w := PullingAfter(s, e, cache, done, c);
            o in w.s.t.orders && HasRef(w.s.t.orders[o], s.t.orders[o].sourceSystem, s.t.orders[o].sourceOrderId)
  {
    RunOnlyAdds(e, Batch(Work(s, cache), EMPTY_RESULT), done, c);
    assert SameIdentity(s.t.orders[o], PullingAfter(s, e, cache, done, c).s.t.orders[o]);
  }

  /** An order that was pushed here under the name of the sync source and is pulled at any later point
      of any interleaving, anywhere in a batch, updates the pushed row: same key, no additional order. */
  lemma PullAfterPush(worlds: seq<World>, i: nat, j: nat, earlier: Store, f: OrderForm,
                      e: Env, cache: map<string, nat>, done: seq<Normalized>, n: Normalized, c: string)
    requires Run(worlds) && i < j < |worlds| && PostedAt(worlds, i, earlier, f) && Sound(worlds[j].s)
    requires UpsertOne(e, PullingAfter(worlds[j].s, e, cache, done, c), n, c).Applied?
    requires FormSystem(f) == e.source && FormRef(f) == n.sourceOrderId
    ensures var w := PullingAfter(worlds[j].s, e, cache, done, c);
            var u := UpsertOne(e, w, n, c);
            && u.action == Updated && u.order == PostedKey(worlds, i, earlier, f)
            && u.w.s.t.orders.Keys == w.s.t.orders.Keys
  {
    var o := PostedKey(worlds, i, earlier, f);
    PostedStays(worlds, i, j, earlier, f);
    PulledStays(worlds[j].s, e, cache, done, c, o);
    PullUpdates(e, PullingAfter(worlds[j].s, e, cache, done, c), n, c, o);
  }
}
