/** The order-sync engine in its own form: a session whose tables are changed statement by
    statement, a product cache and a result record that are updated along the way. Every
    method is tied to the function of module OrderSync that specifies it. */
module SyncSession {
  import opened Wrappers
  import opened Database
  import opened Normalization
  import opened OrderSync

  datatype Outcome = Ok(id: nat) | Error(err: DbError)

  /** What the fetch of the external orders gave. */
  datatype Fetch = NotConfigured | Unreachable(reason: string) | Fetched(orders: seq<RawOrder>)

  datatype Reply = Skipped | FetchFailed(reason: string) | Completed(result: SyncResult) | Crashed

  class SyncSession {
    var db: Tables
    var ids: Ids
    var cache: map<string, nat>
    var result: SyncResult

    ghost function Store(): Store
      reads this`db, this`ids
    {
      Database.Store(db, ids)
    }

    ghost function Work(): Work
      reads this`db, this`ids, this`cache
    {
      OrderSync.Work(Store(), cache)
    }

    ghost function State(): Batch
      reads this
    {
      Batch(Work(), result)
    }

    constructor (db: Tables, ids: Ids)
      ensures Store() == Database.Store(db, ids) && cache == map[] && result == EMPTY_RESULT
    {
      this.db, this.ids, this.cache, this.result := db, ids, map[], EMPTY_RESULT;
    }

    // ------------------------------------------------------------ statements

    method SelectCustomer(email: string) returns (r: Option<nat>)
      requires Valid(db)
      ensures r == FindCustomer(db, email)
    {
      if c :| c in db.customers && db.customers[c].email == email {
        r := Some(c);
      } else {
        r := None;
      }
    }

    method SelectOrder(system: string, ref: string) returns (r: Option<nat>)
      requires Valid(db)
      ensures r == FindRef(db, system, ref)
    {
      if o :| o in db.orders && HasRef(db.orders[o], system, ref) {
        r := Some(o);
      } else {
        r := None;
      }
    }

    method SaveCustomer(row: Customer) returns (r: Outcome)
      requires Sound(Store())
      modifies this`db, this`ids
      ensures var spec := InsertCustomer(old(Store()), row);
              Store() == spec.s && r == if spec.Written? then Ok(spec.id) else Error(spec.err)
    {
      var taken := exists c :: c in db.customers && db.customers[c].email == row.email;
      var id := ids.customer;
      ids := ids.(customer := id + 1);
      if taken { return Error(EmailTaken); }
      db := db.(customers := db.customers[id := row]);
      r := Ok(id);
    }

    method SaveProduct(row: Product) returns (r: Outcome)
      requires Sound(Store())
      modifies this`db, this`ids
      ensures var spec := InsertProduct(old(Store()), row);
              Store() == spec.s && r == if spec.Written? then Ok(spec.id) else Error(spec.err)
    {
      var taken := exists p :: p in db.products && db.products[p].sku == row.sku;
      var id := ids.product;
      ids := ids.(product := id + 1);
      if taken { return Error(SkuTaken); }
      if row.shop.Some? && row.shop.value !in db.shops { return Error(NoSuchShop); }
      db := db.(products := db.products[id := row]);
      r := Ok(id);
    }

    method SaveOrder(row: Order) returns (r: Outcome)
      requires Sound(Store())
      modifies this`db, this`ids
      ensures var spec := InsertOrder(old(Store()), row);
              Store() == spec.s && r == if spec.Written? then Ok(spec.id) else Error(spec.err)
    {
      var taken := exists o :: o in db.orders && HasRef(db.orders[o], row.sourceSystem, row.sourceOrderId);
      var id := ids.order;
      ids := ids.(order := id + 1);
      if row.customer !in db.customers { return Error(NoSuchCustomer); }
      if taken { return Error(RefTaken); }
      db := db.(orders := db.orders[id := row]);
      r := Ok(id);
    }

    method SaveItem(row: Item) returns (r: Outcome)
      requires Sound(Store())
      modifies this`db, this`ids
      ensures var spec := InsertItem(old(Store()), row);
              Store() == spec.s && r == if spec.Written? then Ok(spec.id) else Error(spec.err)
    {
      var id := ids.item;
      ids := ids.(item := id + 1);
      if row.order !in db.orders { return Error(NoSuchOrder); }
      if row.product.Some? && row.product.value !in db.products { return Error(NoSuchProduct); }
      db := db.(items := db.items[id := row]);
      r := Ok(id);
    }

    // ------------------------------------------------------------ the engine

    method ProductLookup(e: Env)
      modifies this`cache
      ensures cache == Lookup(e, Store())
    {
      cache := map[];
      for id := 0 to ids.product
        invariant cache == LookupBelow(e, db.products, id)
      {
        if id in db.products {
          var p := db.products[id];
          cache := cache[e.lower(p.sku) := id];
          cache := cache[e.lower(p.name) := id];
          cache := cache[e.showId(id) := id];
        }
      }
    }

    method ResolveCustomer(e: Env, n: Normalized) returns (r: Outcome)
      requires Sound(Store())
      modifies this`db, this`ids
      ensures var spec := OrderSync.ResolveCustomer(e, old(Store()), n);
              Store() == spec.s && r == if spec.Written? then Ok(spec.id) else Error(spec.err)
    {
      var customer: Option<nat> := None;
      if n.email != "" {
        customer := SelectCustomer(n.email);
      }
      if customer.Some? { return Ok(customer.value); }
      r := SaveCustomer(CustomerRow(e, n));
    }

    method UpsertOrder(e: Env, customer: nat, n: Normalized, correlationId: string)
      returns (action: Action, order: nat)
      requires Sound(Store()) && customer in db.customers
      modifies this`db, this`ids
      ensures var spec := OrderSync.UpsertOrder(e, old(Store()), customer, n, correlationId);
              Store() == spec.s && action == spec.action && order == spec.order
      ensures order in db.orders && RowHolds(e, db.orders[order], n, correlationId)
      ensures db.orders[order].customer == customer
      ensures db.orders[order].createdAt == if order in old(db).orders then old(db).orders[order].createdAt
                                            else n.createdAt
    {
      var found := SelectOrder(e.source, n.sourceOrderId);
      if found.None? {
        action := Created;
        var saved := SaveOrder(OrderRow(e, n, customer, correlationId, n.createdAt));
        order := saved.id;
      } else {
        action, order := Updated, found.value;
        var row := db.orders[order];
        row := row.(customer := customer, total := n.total, status := n.status, notes := n.notes);
        row := row.(shippingAddress := n.shippingAddress, sourceEmail := n.email, syncStatus := "synced");
        row := row.(backlogStatus := n.backlogStatus, syncError := Some(""), payload := Some(n.payload));
        row := row.(lastSynced := Some(n.lastSynced), correlationId := correlationId);
        db := db.(orders := db.orders[order := row]);
      }
    }

    method ResolveProduct(e: Env, item: NormItem) returns (r: Outcome)
      requires Sound(Store())
      modifies this`db, this`ids, this`cache
      ensures var spec := OrderSync.ResolveProduct(e, old(Work()), item);
              Work() == spec.w && r == if spec.Done? then Ok(spec.id) else Error(spec.err)
    {
      var ref := Ref(e, item);
      if ref in cache { return Ok(cache[ref]); }
      var product := GeneratedProduct(e, item);
      r := SaveProduct(product);
      if r.Ok? {
        cache := cache[e.lower(product.sku) := r.id];
        cache := cache[e.lower(product.name) := r.id];
      }
    }

    method SaveLine(e: Env, order: nat, item: NormItem) returns (r: Outcome)
      requires Sound(Store()) && order in db.orders
      modifies this`db, this`ids, this`cache
      ensures var spec := AddItem(e, old(Work()), order, item);
              Work() == spec.w && r == if spec.Done? then Ok(spec.id) else Error(spec.err)
    {
      ghost var resolved := OrderSync.ResolveProduct(e, Work(), item);
      r := ResolveProduct(e, item);
      if r.Error? { return; }
      var product := r.id;
      assert resolved == Done(Work(), product);
      r := SaveItem(Item(order, Some(product), item.quantity, item.unitPrice));
      if r.Error? { return; }
      r := Ok(product);
    }

    method DeleteOrderLines(order: nat)
      modifies this`db
      ensures Store() == DeleteLines(old(Store()), order)
    {
      db := db.(items := map i | i in db.items && db.items[i].order != order :: db.items[i]);
    }

    method ReplaceOrderItems(e: Env, order: nat, items: seq<NormItem>) returns (r: Outcome)
      requires Sound(Store()) && order in db.orders
      modifies this`db, this`ids, this`cache
      ensures Sound(DeleteLines(old(Store()), order))
      ensures var spec := AddItems(e, OrderSync.Work(DeleteLines(old(Store()), order), old(cache)), order, items);
              Work() == spec.w && r == if spec.Done? then Ok(spec.id) else Error(spec.err)
    {
      DeleteLinesEffect(Store(), order, order);
      DeleteOrderLines(order);
      ghost var start := Work();
      var i := 0;
      while i < |items|
        invariant 0 <= i <= |items|
        invariant Sound(Store()) && order in db.orders
        invariant AddItems(e, Work(), order, items[i..]) == AddItems(e, start, order, items)
      {
        assert items[i..][0] == items[i] && items[i..][1..] == items[i + 1..];
        r := SaveLine(e, order, items[i]);
        if r.Error? { return; }
        i := i + 1;
      }
      r := Ok(order);
    }

    method RecordAudit(e: Env, ref: string, action: string, status: AuditStatus, correlationId: string)
      modifies this`db
      ensures Store() == AddAudit(old(Store()), AuditFor(e, ref, action, status, correlationId))
    {
      db := db.(syncAudits := db.syncAudits + [SyncAudit(e.source, ref, action, status, correlationId)]);
    }

    /** The part inside the savepoint, up to the first statement that is refused. */
    method ApplyOrder(e: Env, n: Normalized, correlationId: string) returns (r: Outcome, action: Action)
      requires Sound(Store())
      modifies this`db, this`ids, this`cache
      ensures var spec := UpsertOne(e, old(Work()), n, correlationId);
              && Work() == spec.w
              && r == (if spec.Applied? then Ok(spec.order) else Error(spec.err))
              && (spec.Applied? ==> action == spec.action)
    {
      action := Created;
      r := ResolveCustomer(e, n);
      if r.Error? { return; }
      var order;
      action, order := UpsertOrder(e, r.id, n, correlationId);
      r := ReplaceOrderItems(e, order, n.items);
      if r.Ok? { r := Ok(order); }
    }

    method SkipOrder(e: Env, correlationId: string)
      modifies this
      ensures State() == Skip(e, old(State()), correlationId)
    {
      result := result.(failed := result.failed + 1);
      RecordAudit(e, "", "skip", Invalid, correlationId);
    }

    method KeepOrder(e: Env, n: Normalized, action: Action, order: nat, correlationId: string)
      requires order in db.orders
      modifies this
      ensures State() == Settle(e, old(State()), n, Applied(old(Work()), action, order), correlationId)
    {
      var line := Summary(db, order);
      RecordAudit(e, n.sourceOrderId, ActionName(action), Success, correlationId);
      result := Counted(result, action, line);
    }

    method DropOrder(e: Env, n: Normalized, savepoint: Tables, ghost err: DbError, correlationId: string)
      modifies this
      ensures State() == Settle(e, Batch(OrderSync.Work(Database.Store(savepoint, old(ids)), old(cache)), old(result)),
                                n, Aborted(old(Work()), err), correlationId)
    {
      db := savepoint;
      result := result.(failed := result.failed + 1);
      RecordAudit(e, n.sourceOrderId, "upsert", Failed, correlationId);
    }

    method ProcessOrder(e: Env, n: Normalized, correlationId: string)
      requires Sound(Store())
      modifies this
      ensures State() == OrderSync.ProcessOrder(e, old(State()), n, correlationId)
    {
      if n.sourceOrderId == "" {
        SkipOrder(e, correlationId);
        return;
      }
      var savepoint := db;
      ghost var spec := UpsertOne(e, Work(), n, correlationId);
      var applied, action := ApplyOrder(e, n, correlationId);
      assert Work() == spec.w && (applied.Ok? <==> spec.Applied?);
      if applied.Ok? {
        KeepOrder(e, n, action, applied.id, correlationId);
      } else {
        DropOrder(e, n, savepoint, applied.err, correlationId);
      }
    }

    /** The batch loop; stops at the first order that cannot be read. */
    method ProcessOrders(e: Env, raws: seq<RawOrder>, clock: Clock, correlationId: string) returns (readable: bool)
      requires Sound(Store())
      modifies this
      ensures readable <==> NormalizeAll(e, raws, clock).Some?
      ensures readable ==> State() == RunBatch(e, old(State()), NormalizeAll(e, raws, clock).value, correlationId)
      ensures !readable ==> NotBefore(old(ids), ids)
    {
      var i := 0;
      while i < |raws|
        invariant 0 <= i <= |raws|
        invariant Sound(Store()) && NotBefore(old(ids), ids)
        invariant NormalizeAll(e, raws[..i], clock).Some?
        invariant State() == RunBatch(e, old(State()), NormalizeAll(e, raws[..i], clock).value, correlationId)
      {
        var normalized := NormalizeExternalOrder(e, raws[i], clock(i));
        if normalized.None? {
          NormalizeAllStops(e, raws, clock, i);
          return false;
        }
        NormalizeAllStep(e, raws, clock, i);
        RunBatchStep(e, old(State()), NormalizeAll(e, raws[..i], clock).value, normalized.value.0, correlationId);
        ProcessOrder(e, normalized.value.0, correlationId);
        i := i + 1;
      }
      assert raws[..i] == raws;
      readable := true;
    }

    /** The whole endpoint. A value that cannot be converted ends the run without a commit:
        the tables are as they were, and only identity values have been consumed. */
    method SyncExternalOrders(e: Env, fetch: Fetch, clock: Clock, correlationId: string) returns (r: Reply)
      requires Sound(Store())
      modifies this
      ensures Sound(Store())
      ensures fetch.NotConfigured? ==> r == Skipped && Store() == old(Store())
      ensures fetch.Unreachable? ==> r == FetchFailed(fetch.reason) && Store() == old(Store())
      ensures fetch.Fetched? && NormalizeAll(e, fetch.orders, clock).None? ==> r == Crashed && db == old(db)
      ensures fetch.Fetched? && NormalizeAll(e, fetch.orders, clock).Some? ==>
        var spec := Sync(e, old(Store()), NormalizeAll(e, fetch.orders, clock).value, correlationId);
        r == Completed(spec.result) && Store() == spec.w.s
    {
      if fetch.NotConfigured? { return Skipped; }
      if fetch.Unreachable? { return FetchFailed(fetch.reason); }
      var transaction := db;
      result := EMPTY_RESULT;
      ProductLookup(e);
      var readable := ProcessOrders(e, fetch.orders, clock, correlationId);
      if !readable {
        db := transaction;
        return Crashed;
      }
      r := Completed(result);
    }
  }
}
