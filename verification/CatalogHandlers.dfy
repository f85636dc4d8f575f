/** The endpoints in their own form: each one checks, changes rows in place and commits, or is
    rolled back by a constraint. Each is tied to the plan and write functions of module Catalog
    for a request that nothing overtakes. */
module CatalogHandlers {
  import opened Wrappers
  import opened Database
  import opened Catalog
  import opened CatalogProofs

  function Reply(w: Catalog.Written): Response {
    match w
    case Committed(_, response) => response
    case RolledBack(_, error) => Crashed(error)
  }

  class Handlers {
    var db: Tables
    var ids: Ids

    ghost function Store(): Store
      reads this
    {
      Database.Store(db, ids)
    }

    /** The object now holds what serving `r` on `before` leaves, and `response` is its answer. */
    ghost predicate Served(before: Store, r: Request, response: Response)
      reads this
      requires Sound(before)
    {
      Store() == Serve(before, r).s && response == Reply(Serve(before, r))
    }

    constructor (db: Tables, ids: Ids)
      ensures Store() == Database.Store(db, ids)
    {
      this.db, this.ids := db, ids;
    }

    method CreateProduct(f: ProductForm) returns (r: Response)
      requires Sound(Store())
      modifies this
      ensures Served(old(Store()), Request.CreateProduct(f), r)
    {
      if exists p :: p in db.products && db.products[p].sku == f.sku { return Duplicate; }
      if f.shop.Some? && f.shop.value !in db.shops { return NoShop; }
      var id := ids.product;
      ids := ids.(product := id + 1);
      db := db.(products := db.products[id := ProductRow(f)]);
      r := Made(id);
    }

    method UpdateProduct(id: nat, f: ProductForm) returns (r: Response)
      requires Sound(Store())
      modifies this
      ensures Served(old(Store()), Request.UpdateProduct(id, f), r)
    {
      UpdateProductExact(Store(), id, f);
      if id !in db.products { return NotFound; }
      if exists p :: p in db.products && p != id && db.products[p].sku == f.sku { return Duplicate; }
      if f.shop.Some? && f.shop.value !in db.shops { return NoShop; }
      var row := db.products[id];
      row := row.(name := f.name, sku := f.sku, description := f.description);
      row := row.(price := f.price, stock := f.stock, category := f.category);
      row := row.(imageUrl := f.imageUrl, shop := f.shop, isActive := f.isActive);
      db := db.(products := db.products[id := row]);
      r := Changed;
    }

    method DeleteProduct(id: nat) returns (r: Response)
      requires Sound(Store())
      modifies this
      ensures Served(old(Store()), Request.DeleteProduct(id), r)
    {
      DeleteProductExact(Store(), id);
      if id !in db.products { return NotFound; }
      if exists i :: i in db.items && db.items[i].product == Some(id) {
        db := db.(products := db.products[id := db.products[id].(isActive := false)]);
        r := Archived;
      } else {
        db := db.(products := db.products - {id});
        r := Deleted;
      }
    }

    method CreateShop(shop: ShopForm) returns (r: Response)
      requires Sound(Store())
      modifies this
      ensures Served(old(Store()), Request.CreateShop(shop), r)
    {
      if exists s :: s in db.shops && db.shops[s].slug == shop.slug { return Duplicate; }
      var id := ids.shop;
      ids := ids.(shop := id + 1);
      db := db.(shops := db.shops[id := ShopRow(shop, NEW_CONTACT)]);
      r := Made(id);
    }

    method UpdateShop(id: nat, shop: ShopForm) returns (r: Response)
      requires Sound(Store())
      modifies this
      ensures Served(old(Store()), Request.UpdateShop(id, shop), r)
    {
      UpdateShopExact(Store(), id, shop);
      if id !in db.shops { return NotFound; }
      if exists s :: s in db.shops && s != id && db.shops[s].slug == shop.slug { return Duplicate; }
      var row := db.shops[id];
      row := row.(name := shop.name, slug := shop.slug, storefrontUrl := shop.storefrontUrl);
      row := row.(crmBaseUrl := shop.crmBaseUrl, region := shop.region, currency := shop.currency);
      row := row.(status := shop.status, notes := shop.notes);
      db := db.(shops := db.shops[id := row]);
      r := Changed;
    }

    method DeleteShop(id: nat) returns (r: Response)
      requires Sound(Store())
      modifies this
      ensures Served(old(Store()), Request.DeleteShop(id), r)
    {
      if id !in db.shops { return NotFound; }
      if exists p :: p in db.products && db.products[p].shop == Some(id) { return ShopInUse; }
      DeleteShopExact(Store(), id);
      db := db.(shops := db.shops - {id});
      r := Deleted;
    }

    /** The item loop of an order request: prices the lines and adds them up. */
    method PriceLines(items: seq<ItemForm>) returns (lines: Option<seq<Line>>, computedTotal: real)
      ensures lines == PricedLines(db.products, items)
      ensures lines.Some? ==> computedTotal == Total(lines.value)
    {
      var orderItems: seq<Line> := [];
      computedTotal := 0.0;
      var i := 0;
      while i < |items|
        invariant 0 <= i <= |items|
        invariant PricedLines(db.products, items[..i]) == Some(orderItems)
        invariant computedTotal == Total(orderItems)
      {
        if items[i].quantity <= 0 {
          PricedLinesExact(db.products, items);
          return None, 0.0;
        }
        var line := PricedLine(db.products, items[i]);
        computedTotal := computedTotal + line.quantity as real * line.unitPrice;
        assert items[..i + 1][..i] == items[..i];
        assert (orderItems + [line])[..|orderItems|] == orderItems;
        orderItems := orderItems + [line];
        i := i + 1;
      }
      assert items[..i] == items;
      lines := Some(orderItems);
    }

    method SaveLine(order: nat, line: Line) returns (error: Option<DbError>)
      requires Sound(Store())
      modifies this
      ensures var spec := InsertItem(old(Store()), Item(order, line.product, line.quantity, line.unitPrice));
              Store() == spec.s && error == if spec.Written? then None else Some(spec.err)
    {
      var id := ids.item;
      ids := ids.(item := id + 1);
      if order !in db.orders { return Some(NoSuchOrder); }
      if line.product.Some? && line.product.value !in db.products { return Some(NoSuchProduct); }
      db := db.(items := db.items[id := Item(order, line.product, line.quantity, line.unitPrice)]);
      error := None;
    }

    method SaveLines(order: nat, lines: seq<Line>) returns (error: Option<DbError>)
      requires Sound(Store()) && order in db.orders
      modifies this
      ensures var spec := InsertLines(old(Store()), order, lines);
              Store() == spec.s && error == if spec.Written? then None else Some(spec.err)
    {
      var i := 0;
      while i < |lines|
        invariant 0 <= i <= |lines|
        invariant Sound(Store()) && order in db.orders
        invariant InsertLines(Store(), order, lines[i..]) == InsertLines(old(Store()), order, lines)
      {
        assert lines[i..][0] == lines[i] && lines[i..][1..] == lines[i + 1..];
        error := SaveLine(order, lines[i]);
        if error.Some? { return; }
        i := i + 1;
      }
      error := None;
    }

    /** Insert the order and its lines; a refused statement rolls the request back. */
    method SaveOrder(row: Order, lines: seq<Line>) returns (r: Response)
      requires Sound(Store())
      modifies this
      ensures Store() == WriteAddOrder(old(Store()), row, lines).s
      ensures r == Reply(WriteAddOrder(old(Store()), row, lines))
    {
      var transaction := db;
      var taken := exists o :: o in db.orders && HasRef(db.orders[o], row.sourceSystem, row.sourceOrderId);
      var id := ids.order;
      ids := ids.(order := id + 1);
      if row.customer !in db.customers { return Crashed(NoSuchCustomer); }
      if taken { return Crashed(RefTaken); }
      db := db.(orders := db.orders[id := row]);
      assert Store() == InsertOrder(old(Store()), row).s;
      var error := SaveLines(id, lines);
      if error.Some? {
        db := transaction;
        return Crashed(error.value);
      }
      r := Made(id);
    }

    /** The reads and checks of an order request. */
    method PrepareOrder(f: OrderForm) returns (plan: Plan)
      ensures plan == PlanCreateOrder(db, f)
    {
      if f.customer == 0 || f.customer !in db.customers { return Answer(NotFound); }
      var lines, computedTotal := PriceLines(FormItems(f));
      if lines.None? { return Answer(BadQuantity); }
      plan := AddOrder(FormRow(f, computedTotal, db.customers[f.customer].email), lines.value);
    }

    method CarryOutOrder(plan: Plan) returns (r: Response)
      requires Sound(Store()) && (plan.Answer? || plan.AddOrder?)
      modifies this
      ensures Store() == Write(old(Store()), plan).s && r == Reply(Write(old(Store()), plan))
    {
      match plan {
        case Answer(response) => r := response;
        case AddOrder(order, lines) => r := SaveOrder(order, lines);
      }
    }

    method CreateOrder(f: OrderForm) returns (r: Response)
      requires Sound(Store())
      modifies this
      ensures Served(old(Store()), Request.CreateOrder(f), r)
    {
      var plan := PrepareOrder(f);
      assert plan == Read(Store(), Request.CreateOrder(f));
      r := CarryOutOrder(plan);
    }

    method UpdateOrderStatus(id: nat, status: string) returns (r: Response)
      requires Sound(Store())
      modifies this
      ensures Served(old(Store()), Request.SetStatus(id, status), r)
    {
      SetStatusExact(Store(), id, status);
      if id !in db.orders { return NotFound; }
      var row := db.orders[id].(status := status);
      row := row.(backlogStatus := if status in {"pending", "processing", "queued"} then "backlog" else "current");
      db := db.(orders := db.orders[id := row]);
      r := Changed;
    }
  }
}
