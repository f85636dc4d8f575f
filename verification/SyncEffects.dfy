/** What one order does to the tables, said without the steps that do it; and what a whole
    batch leaves behind in the counters, the result list and the audit trail. */
module SyncEffects {
  import opened Wrappers
  import opened Database
  import opened Normalization
  import opened OrderSync

  // ---------------------------------------------------------------- the lines of one order

  ghost predicate LineFor(t: Tables, line: Line, item: NormItem) {
    && line.quantity == item.quantity && line.unitPrice == item.unitPrice
    && line.product.Some? && line.product.value in t.products
  }

  /** One stored line per item, in order, each naming a live product. */
  ghost predicate LinesFor(t: Tables, lines: seq<Line>, items: seq<NormItem>) {
    |lines| == |items| && forall k :: 0 <= k < |items| ==> LineFor(t, lines[k], items[k])
  }

  lemma AddItemEffect(e: Env, w: Work, order: nat, item: NormItem, other: nat)
    requires Sound(w.s) && order in w.s.t.orders && AddItem(e, w, order, item).Done?
    ensures var r := AddItem(e, w, order, item);
            && r.id in r.w.s.t.products
            && Lines(r.w.s, other) ==
               if other == order then Lines(w.s, order) + [Line(Some(r.id), item.quantity, item.unitPrice)]
               else Lines(w.s, other)
  {
    var p := ResolveProduct(e, w, item);
    InsertItemEffect(p.w.s, Item(order, Some(p.id), item.quantity, item.unitPrice), other);
  }

  /** The item loop leaves other orders alone. */
  lemma {:induction false} AddItemsFrame(e: Env, w: Work, order: nat, items: seq<NormItem>, other: nat)
    requires Sound(w.s) && order in w.s.t.orders && other != order && AddItems(e, w, order, items).Done?
    ensures Lines(AddItems(e, w, order, items).w.s, other) == Lines(w.s, other)
    decreases |items|
  {
    if items == [] {
    } else {
      AddItemEffect(e, w, order, items[0], other);
      AddItemsFrame(e, AddItem(e, w, order, items[0]).w, order, items[1..], other);
    }
  }

  lemma ConcatAssociates<T>(a: seq<T>, x: T, b: seq<T>)
    ensures a + [x] + b == a + ([x] + b)
  {
  }

  lemma LinesForCons(t: Tables, first: Line, rest: seq<Line>, items: seq<NormItem>)
    requires items != [] && LineFor(t, first, items[0]) && LinesFor(t, rest, items[1..])
    ensures LinesFor(t, [first] + rest, items)
  {
    forall k | 0 <= k < |items|
      ensures LineFor(t, ([first] + rest)[k], items[k])
    {
      if k > 0 { assert LineFor(t, rest[k - 1], items[1..][k - 1]); }
    }
  }

  /** The item loop appends one line per item. */
  lemma {:induction false} AddItemsEffect(e: Env, w: Work, order: nat, items: seq<NormItem>) returns (added: seq<Line>)
    requires Sound(w.s) && order in w.s.t.orders && AddItems(e, w, order, items).Done?
    ensures Lines(AddItems(e, w, order, items).w.s, order) == Lines(w.s, order) + added
    ensures LinesFor(AddItems(e, w, order, items).w.s.t, added, items)
    decreases |items|
  {
    if items == [] {
      added := [];
    } else {
      var r := AddItem(e, w, order, items[0]);
      AddItemEffect(e, w, order, items[0], order);
      var rest := AddItemsEffect(e, r.w, order, items[1..]);
      var first := Line(Some(r.id), items[0].quantity, items[0].unitPrice);
      LinesForCons(AddItems(e, r.w, order, items[1..]).w.s.t, first, rest, items);
      ConcatAssociates(Lines(w.s, order), first, rest);
      added := [first] + rest;
    }
  }

  /** The e-mail an order's customer has: the order's own, or one made up from its id. */
  function BuyerEmail(n: Normalized): string {
    if n.email != "" then n.email else n.sourceOrderId + "@external.local"
  }

  /** The order row is that of the external order, and belongs to the customer with its e-mail. */
  ghost predicate RowFor(e: Env, t: Tables, row: Order, n: Normalized, correlationId: string) {
    && RowHolds(e, row, n, correlationId)
    && row.customer in t.customers && t.customers[row.customer].email == BuyerEmail(n)
  }

  /** The customer that an order without a known one adds. */
  predicate NewCustomer(e: Env, c: Customer, n: Normalized) {
    && c.name == n.name && c.email == BuyerEmail(n) && c.company == e.source && c.industry == "Retail"
    && c.revenue == n.total && c.notes == "Auto-created from " + e.source + " sync"
  }

  /** The customers are the same, or the order's new customer has been added to them. */
  ghost predicate CustomerFor(e: Env, before: map<nat, Customer>, after: map<nat, Customer>, customer: nat,
                              n: Normalized) {
    || after == before
    || (customer !in before && customer in after && NewCustomer(e, after[customer], n)
        && after == before[customer := after[customer]])
  }

  lemma SavedRow(e: Env, s: Store, n: Normalized, correlationId: string)
    requires Sound(s) && ResolveCustomer(e, s, n).Written?
    ensures var c := ResolveCustomer(e, s, n);
            var o := UpsertOrder(e, c.s, c.id, n, correlationId);
            && RowFor(e, o.s.t, o.s.t.orders[o.order], n, correlationId)
            && CustomerFor(e, s.t.customers, o.s.t.customers, o.s.t.orders[o.order].customer, n)
  {
  }

  lemma RowForTables(e: Env, a: Tables, b: Tables, row: Order, n: Normalized, correlationId: string)
    requires RowFor(e, a, row, n, correlationId) && b.customers == a.customers
    ensures RowFor(e, b, row, n, correlationId)
  {
  }

  /** An accepted order: its row and its lines are exactly what the external order says, at most the
      customer it belongs to was added, and no other order row and no other line changed. */
  lemma AppliedEffect(e: Env, w: Work, n: Normalized, correlationId: string)
    requires Sound(w.s) && UpsertOne(e, w, n, correlationId).Applied?
    ensures var r := UpsertOne(e, w, n, correlationId);
            && RowFor(e, r.w.s.t, r.w.s.t.orders[r.order], n, correlationId)
            && LinesFor(r.w.s.t, Lines(r.w.s, r.order), n.items)
            && r.w.s.t.orders == w.s.t.orders[r.order := r.w.s.t.orders[r.order]]
            && (forall other :: other != r.order ==> Lines(r.w.s, other) == Lines(w.s, other))
    ensures var r := UpsertOne(e, w, n, correlationId);
            CustomerFor(e, w.s.t.customers, r.w.s.t.customers, r.w.s.t.orders[r.order].customer, n)
    ensures var r := UpsertOne(e, w, n, correlationId);
            && (r.action == Updated <==> RefInUse(w.s.t, e.source, n.sourceOrderId))
            && (r.action == Updated ==> r.order in w.s.t.orders)
            && (r.action == Created ==> r.order !in w.s.t.orders)
            && r.w.s.t.orders[r.order].createdAt ==
               if r.action == Updated then w.s.t.orders[r.order].createdAt else n.createdAt
  {
    var c := ResolveCustomer(e, w.s, n);
    var o := UpsertOrder(e, c.s, c.id, n, correlationId);
    var emptied := DeleteLines(o.s, o.order);
    DeleteLinesEffect(o.s, o.order, o.order);
    var start := Work(emptied, w.cache);
    var added := AddItemsEffect(e, start, o.order, n.items);
    assert [] + added == added;
    var r := AddItems(e, start, o.order, n.items);
    SavedRow(e, w.s, n, correlationId);
    RowForTables(e, o.s.t, r.w.s.t, o.s.t.orders[o.order], n, correlationId);
    forall other | other != o.order
      ensures Lines(r.w.s, other) == Lines(w.s, other)
    {
      DeleteLinesEffect(o.s, o.order, other);
      AddItemsFrame(e, start, o.order, n.items, other);
    }
  }

  /** Stored lines come to what the items come to. */
  lemma {:induction false} LinesCost(t: Tables, lines: seq<Line>, items: seq<NormItem>)
    requires LinesFor(t, lines, items)
    ensures Total(lines) == LineSum(items)
  {
    if items != [] {
      var last := |items| - 1;
      assert LineFor(t, lines[last], items[last]);
      forall k | 0 <= k < last
        ensures LineFor(t, lines[..last][k], items[..last][k])
      {
        assert LineFor(t, lines[k], items[k]);
      }
      LinesCost(t, lines[..last], items[..last]);
    }
  }

  // ---------------------------------------------------------------- products

  /** The text an item is looked up under. */
  lemma RefExact(e: Env, item: NormItem)
    ensures Ref(e, item)
         == e.lower(if Truthy(item.productRef) then Show(e, item.productRef) else item.productName)
  {
  }

  /** A product that a sync generates for an item. */
  predicate Generated(e: Env, p: Product, item: NormItem) {
    && p.shop == None && p.name == (if item.productName != "" then item.productName else "Synced Item")
    && p.sku == "SYNC-" + e.digest(if Ref(e, item) != "" then Ref(e, item) else p.name)
    && p.description == "Auto-created from " + e.source && p.price == item.unitPrice && p.stock == 999
    && p.category == "External Sync" && p.imageUrl == None && p.isActive
  }

  /** What one item does: a reference that the lookup knows gives that product and adds none; otherwise one
      product is generated, and from then on found under its SKU and its name. The line names the product. */
  lemma AddItemExact(e: Env, w: Work, order: nat, item: NormItem)
    requires Sound(w.s) && order in w.s.t.orders && AddItem(e, w, order, item).Done?
    ensures var r := AddItem(e, w, order, item);
            Lines(r.w.s, order) == Lines(w.s, order) + [Line(Some(r.id), item.quantity, item.unitPrice)]
    ensures var r := AddItem(e, w, order, item);
            Ref(e, item) in w.cache ==>
              r.id == w.cache[Ref(e, item)] && r.w.s.t.products == w.s.t.products && r.w.cache == w.cache
    ensures var r := AddItem(e, w, order, item);
            Ref(e, item) !in w.cache ==>
              && r.id !in w.s.t.products && r.id in r.w.s.t.products
              && Generated(e, r.w.s.t.products[r.id], item)
              && r.w.s.t.products == w.s.t.products[r.id := r.w.s.t.products[r.id]]
              && r.w.cache == w.cache[e.lower(r.w.s.t.products[r.id].sku) := r.id]
                                     [e.lower(r.w.s.t.products[r.id].name) := r.id]
  {
    AddItemEffect(e, w, order, item, order);
  }

  // ---------------------------------------------------------------- one turn of the loop

  /** A failing order adds one audit row and changes nothing else in the tables. */
  lemma FailureIsolated(e: Env, b: Batch, n: Normalized, correlationId: string)
    requires Sound(b.w.s)
    ensures var r := ProcessOrder(e, b, n, correlationId);
            r.result.failed != b.result.failed ==>
              && |r.w.s.t.syncAudits| == |b.w.s.t.syncAudits| + 1
              && r.w.s.t == b.w.s.t.(syncAudits := r.w.s.t.syncAudits)
              && r.result == b.result.(failed := b.result.failed + 1)
  {
    if n.sourceOrderId != "" {
      SettleIsolated(e, b, n, UpsertOne(e, b.w, n, correlationId), correlationId);
    }
  }

  lemma SettleIsolated(e: Env, b: Batch, n: Normalized, u: Upsert, correlationId: string)
    requires u.Applied? ==> u.order in u.w.s.t.orders
    ensures var r := Settle(e, b, n, u, correlationId);
            r.result.failed != b.result.failed ==>
              && |r.w.s.t.syncAudits| == |b.w.s.t.syncAudits| + 1
              && r.w.s.t == b.w.s.t.(syncAudits := r.w.s.t.syncAudits)
              && r.result == b.result.(failed := b.result.failed + 1)
  {
  }

  /** A turn that refuses nothing reports the order as the external system described it: one more entry,
      which names the stored row and shows what that row says. */
  lemma TurnReports(e: Env, b: Batch, n: Normalized, correlationId: string)
    requires Sound(b.w.s) && ProcessOrder(e, b, n, correlationId).result.failed == b.result.failed
    ensures var r := ProcessOrder(e, b, n, correlationId);
            && r.result.created == b.result.created + (if RefInUse(b.w.s.t, e.source, n.sourceOrderId) then 0 else 1)
            && r.result.updated == b.result.updated + (if RefInUse(b.w.s.t, e.source, n.sourceOrderId) then 1 else 0)
            && |r.result.orders| == |b.result.orders| + 1 && b.result.orders == r.result.orders[..|b.result.orders|]
            && var entry := r.result.orders[|b.result.orders|];
               && Reports(entry, n) && entry.id in r.w.s.t.orders
               && RowFor(e, r.w.s.t, r.w.s.t.orders[entry.id], n, correlationId)
               && LinesFor(r.w.s.t, Lines(r.w.s, entry.id), n.items)
  {
    AppliedEffect(e, b.w, n, correlationId);
    var u := UpsertOne(e, b.w, n, correlationId);
    RowForTables(e, u.w.s.t, ProcessOrder(e, b, n, correlationId).w.s.t, u.w.s.t.orders[u.order], n, correlationId);
  }

  /** From the payload to the row: an accepted order that declares neither total nor amount is stored, and
      reported, at what its stored lines less the discount, if that is anything, and the shipping come to,
      to within half a cent. */
  lemma UndeclaredOrderStored(e: Env, b: Batch, raw: RawOrder, now: Moment, correlationId: string)
    requires Sound(b.w.s) && Normalize(e, raw, now).Some? && !Truthy(raw.total) && !Truthy(raw.amount)
    requires ProcessOrder(e, b, Normalize(e, raw, now).value.0, correlationId).result.failed == b.result.failed
    ensures var r := ProcessOrder(e, b, Normalize(e, raw, now).value.0, correlationId);
            && r.result.orders != []
            && var entry := r.result.orders[|r.result.orders| - 1];
               && entry.id in r.w.s.t.orders && entry.total == r.w.s.t.orders[entry.id].total
               && var net := Total(Lines(r.w.s, entry.id)) - Discount(e, raw);
                  var exact := (if net > 0.0 then net else 0.0) + Shipping(e, raw).value;
                  -0.005 <= r.w.s.t.orders[entry.id].total - exact <= 0.005
  {
    var n := Normalize(e, raw, now).value.0;
    var r := ProcessOrder(e, b, n, correlationId);
    TurnReports(e, b, n, correlationId);
    var entry := r.result.orders[|b.result.orders|];
    LinesCost(r.w.s.t, Lines(r.w.s, entry.id), n.items);
    UndeclaredTotal(e, raw, now);
  }

  // ---------------------------------------------------------------- the audit trail

  function CountStatus(audits: seq<SyncAudit>, status: AuditStatus): nat {
    if audits == [] then 0
    else CountStatus(audits[..|audits| - 1], status) + if audits[|audits| - 1].status == status then 1 else 0
  }

  function CountAction(audits: seq<SyncAudit>, action: string): nat {
    if audits == [] then 0
    else CountAction(audits[..|audits| - 1], action) + if audits[|audits| - 1].action == action then 1 else 0
  }

  /** The audit row of one order says which order it was and how it went. */
  predicate AuditOf(e: Env, a: SyncAudit, n: Normalized, correlationId: string) {
    && a.sourceSystem == e.source && a.sourceOrderId == n.sourceOrderId && a.correlationId == correlationId
    && (a.status == Invalid <==> n.sourceOrderId == "")
    && (a.status == Success <==> a.action == "created" || a.action == "updated")
    && (a.status == Failed ==> a.action == "upsert") && (a.status == Invalid ==> a.action == "skip")
  }

  /** What the result list says about an accepted order. */
  predicate Reports(entry: OrderSummary, n: Normalized) {
    && entry.sourceOrderId == n.sourceOrderId && entry.status == n.status
    && entry.backlogStatus == n.backlogStatus && entry.total == n.total
  }

  /** One entry for each order whose audit row says success, in the order of the batch. */
  predicate Listed(entries: seq<OrderSummary>, ns: seq<Normalized>, trail: seq<SyncAudit>)
    requires |trail| == |ns|
  {
    if ns == [] then entries == []
    else
      var last := |ns| - 1;
      if trail[last].status == Success then
        entries != [] && Reports(entries[|entries| - 1], ns[last])
        && Listed(entries[..|entries| - 1], ns[..last], trail[..last])
      else Listed(entries, ns[..last], trail[..last])
  }

  lemma CountsGrow(audits: seq<SyncAudit>, a: SyncAudit, status: AuditStatus, action: string)
    ensures CountStatus(audits + [a], status) == CountStatus(audits, status) + if a.status == status then 1 else 0
    ensures CountAction(audits + [a], action) == CountAction(audits, action) + if a.action == action then 1 else 0
  {
    assert (audits + [a])[..|audits|] == audits;
  }

  ghost predicate Balanced(e: Env, b: Batch, r: Batch, ns: seq<Normalized>, trail: seq<SyncAudit>,
                           correlationId: string) {
    && r.w.s.t.syncAudits == b.w.s.t.syncAudits + trail
    && |trail| == |ns| && (forall k :: 0 <= k < |ns| ==> AuditOf(e, trail[k], ns[k], correlationId))
    && r.result.created == b.result.created + CountAction(trail, "created")
    && r.result.updated == b.result.updated + CountAction(trail, "updated")
    && r.result.failed == b.result.failed + CountStatus(trail, Failed) + CountStatus(trail, Invalid)
    && r.result.created + r.result.updated == b.result.created + b.result.updated + CountStatus(trail, Success)
    && r.result.created + r.result.updated + r.result.failed
         == b.result.created + b.result.updated + b.result.failed + |ns|
    && |r.result.orders| + b.result.created + b.result.updated
         == |b.result.orders| + r.result.created + r.result.updated
  }

  predicate Tallied(b: Batch, r: Batch, a: SyncAudit) {
    && r.w.s.t.syncAudits == b.w.s.t.syncAudits + [a]
    && r.result.created == b.result.created + (if a.action == "created" then 1 else 0)
    && r.result.updated == b.result.updated + (if a.action == "updated" then 1 else 0)
    && r.result.failed == b.result.failed + (if a.status == Success then 0 else 1)
    && |r.result.orders| == |b.result.orders| + (if a.status == Success then 1 else 0)
  }

  lemma ReportsRow(e: Env, w: Work, n: Normalized, correlationId: string)
    requires Sound(w.s) && UpsertOne(e, w, n, correlationId).Applied?
    ensures var r := UpsertOne(e, w, n, correlationId); Reports(Summary(r.w.s.t, r.order), n)
  {
    AppliedEffect(e, w, n, correlationId);
  }

  /** One turn adds one audit row, of the right kind, and moves one counter; a success is listed. */
  lemma TurnAudited(e: Env, b: Batch, n: Normalized, correlationId: string)
    returns (a: SyncAudit, listed: seq<OrderSummary>)
    requires Sound(b.w.s)
    ensures AuditOf(e, a, n, correlationId)
    ensures Tallied(b, ProcessOrder(e, b, n, correlationId), a)
    ensures ProcessOrder(e, b, n, correlationId).result.orders == b.result.orders + listed
    ensures if a.status == Success then |listed| == 1 && Reports(listed[0], n) else listed == []
  {
    listed := [];
    if n.sourceOrderId == "" {
      a := AuditFor(e, "", "skip", Invalid, correlationId);
    } else {
      var r := UpsertOne(e, b.w, n, correlationId);
      match r
      case Applied(_, action, order) =>
        a := AuditFor(e, n.sourceOrderId, ActionName(action), Success, correlationId);
        ReportsRow(e, b.w, n, correlationId);
        listed := [Summary(r.w.s.t, order)];
      case Aborted(_, _) => a := AuditFor(e, n.sourceOrderId, "upsert", Failed, correlationId);
    }
  }

  lemma ListedStep(before: seq<OrderSummary>, ns: seq<Normalized>, rest: seq<SyncAudit>, a: SyncAudit,
                   listed: seq<OrderSummary>)
    requires ns != [] && |rest| == |ns| - 1 && Listed(before, ns[..|ns| - 1], rest)
    requires if a.status == Success then |listed| == 1 && Reports(listed[0], ns[|ns| - 1]) else listed == []
    ensures Listed(before + listed, ns, rest + [a])
  {
    assert (rest + [a])[..|ns| - 1] == rest;
    if a.status == Success {
      assert (before + listed)[..|before + listed| - 1] == before;
    } else {
      assert before + listed == before;
    }
  }

  lemma BalancedNothing(e: Env, b: Batch, correlationId: string)
    ensures Balanced(e, b, b, [], [], correlationId)
  {
  }

  lemma BalancedStep(e: Env, b: Batch, mid: Batch, r: Batch, ns: seq<Normalized>, n: Normalized,
                     trail: seq<SyncAudit>, a: SyncAudit, correlationId: string)
    requires Balanced(e, b, mid, ns, trail, correlationId)
    requires AuditOf(e, a, n, correlationId) && Tallied(mid, r, a)
    ensures Balanced(e, b, r, ns + [n], trail + [a], correlationId)
  {
    CountsGrow(trail, a, Success, "created");
    CountsGrow(trail, a, Failed, "updated");
    CountsGrow(trail, a, Invalid, "created");
    assert b.w.s.t.syncAudits + trail + [a] == b.w.s.t.syncAudits + (trail + [a]);
  }

  lemma BalancedTurn(e: Env, b: Batch, mid: Batch, r: Batch, ns: seq<Normalized>, trail: seq<SyncAudit>, a: SyncAudit,
                     correlationId: string)
    requires ns != [] && Balanced(e, b, mid, ns[..|ns| - 1], trail, correlationId)
    requires AuditOf(e, a, ns[|ns| - 1], correlationId) && Tallied(mid, r, a)
    ensures Balanced(e, b, r, ns, trail + [a], correlationId)
  {
    BalancedStep(e, b, mid, r, ns[..|ns| - 1], ns[|ns| - 1], trail, a, correlationId);
    assert ns[..|ns| - 1] + [ns[|ns| - 1]] == ns;
  }

  /** The ledger of a batch: the audit trail balances and the result list names the successes. */
  ghost predicate Ledger(e: Env, b: Batch, r: Batch, ns: seq<Normalized>, trail: seq<SyncAudit>,
                         entries: seq<OrderSummary>, correlationId: string) {
    && Balanced(e, b, r, ns, trail, correlationId)
    && r.result.orders == b.result.orders + entries && Listed(entries, ns, trail)
  }

  lemma LedgerTurn(e: Env, b: Batch, mid: Batch, r: Batch, ns: seq<Normalized>, trail: seq<SyncAudit>,
                   before: seq<OrderSummary>, a: SyncAudit, listed: seq<OrderSummary>, correlationId: string)
    requires ns != [] && Ledger(e, b, mid, ns[..|ns| - 1], trail, before, correlationId)
    requires AuditOf(e, a, ns[|ns| - 1], correlationId) && Tallied(mid, r, a)
    requires r.result.orders == mid.result.orders + listed
    requires if a.status == Success then |listed| == 1 && Reports(listed[0], ns[|ns| - 1]) else listed == []
    ensures Ledger(e, b, r, ns, trail + [a], before + listed, correlationId)
  {
    BalancedTurn(e, b, mid, r, ns, trail, a, correlationId);
    ListedStep(before, ns, trail, a, listed);
    assert b.result.orders + before + listed == b.result.orders + (before + listed);
  }

  /** The batch is accounted for to the last order: one audit row per order, in batch order;
      the three counters add up to the batch; the result list has one entry per success, in batch
      order, that says what the order says; the successful audits are the created and updated
      orders, the rest are the failures. */
  lemma {:induction false} BatchLedger(e: Env, b: Batch, ns: seq<Normalized>, correlationId: string)
    returns (trail: seq<SyncAudit>, entries: seq<OrderSummary>)
    requires Sound(b.w.s)
    ensures Ledger(e, b, RunBatch(e, b, ns, correlationId), ns, trail, entries, correlationId)
  {
    if ns == [] {
      trail, entries := [], [];
      BalancedNothing(e, b, correlationId);
    } else {
      var rest, before := BatchLedger(e, b, ns[..|ns| - 1], correlationId);
      var mid := RunBatch(e, b, ns[..|ns| - 1], correlationId);
      var a, listed := TurnAudited(e, mid, ns[|ns| - 1], correlationId);
      LedgerTurn(e, b, mid, RunBatch(e, b, ns, correlationId), ns, rest, before, a, listed, correlationId);
      trail, entries := rest + [a], before + listed;
    }
  }

  /** Customers and products are only added, shops are untouched, an order stays under its
      source reference and keeps its creation time. */
  ghost predicate OnlyAdds(a: Tables, b: Tables) {
    && Extends(a.customers, b.customers) && Extends(a.products, b.products) && a.shops == b.shops
    && forall o :: o in a.orders ==> o in b.orders && SameIdentity(a.orders[o], b.orders[o])
  }

  predicate SameIdentity(a: Order, b: Order) {
    HasRef(b, a.sourceSystem, a.sourceOrderId) && a.createdAt == b.createdAt
  }

  /** The row an accepted order overwrites stays under its reference and keeps its creation time. */
  lemma OverwrittenInPlace(e: Env, w: Work, n: Normalized, correlationId: string)
    requires Sound(w.s) && UpsertOne(e, w, n, correlationId).Applied?
    ensures var r := UpsertOne(e, w, n, correlationId);
            r.order in w.s.t.orders ==> SameIdentity(w.s.t.orders[r.order], r.w.s.t.orders[r.order])
  {
    AppliedEffect(e, w, n, correlationId);
    UpdatedInPlace(e, w, n, correlationId);
    var r := UpsertOne(e, w, n, correlationId);
    assert RowFor(e, r.w.s.t, r.w.s.t.orders[r.order], n, correlationId);
  }

  lemma AppliedOnlyAdds(e: Env, w: Work, n: Normalized, correlationId: string)
    requires Sound(w.s) && UpsertOne(e, w, n, correlationId).Applied?
    ensures OnlyAdds(w.s.t, UpsertOne(e, w, n, correlationId).w.s.t)
  {
    AppliedEffect(e, w, n, correlationId);
    OverwrittenInPlace(e, w, n, correlationId);
    var r := UpsertOne(e, w, n, correlationId);
    OneOrderWritten(w.s.t, r.w.s.t, r.order);
  }

  lemma OneOrderWritten(a: Tables, b: Tables, o: nat)
    requires Extends(a.customers, b.customers) && Extends(a.products, b.products) && a.shops == b.shops
    requires o in b.orders && b.orders == a.orders[o := b.orders[o]]
    requires o in a.orders ==> SameIdentity(a.orders[o], b.orders[o])
    ensures OnlyAdds(a, b)
  {
  }

  /** An updated order is the one that carried the reference before. */
  lemma UpdatedInPlace(e: Env, w: Work, n: Normalized, correlationId: string)
    requires Sound(w.s) && UpsertOne(e, w, n, correlationId).Applied?
    ensures var r := UpsertOne(e, w, n, correlationId);
            r.order in w.s.t.orders ==> HasRef(w.s.t.orders[r.order], e.source, n.sourceOrderId)
  {
    var c := ResolveCustomer(e, w.s, n);
    var o := UpsertOrder(e, c.s, c.id, n, correlationId);
    DeleteLinesEffect(o.s, o.order, o.order);
  }

  /** What an accepted order does not touch: every order but its own. */
  lemma AppliedFrame(e: Env, w: Work, n: Normalized, correlationId: string, o: nat)
    requires Sound(w.s) && UpsertOne(e, w, n, correlationId).Applied? && o in w.s.t.orders
    ensures var r := UpsertOne(e, w, n, correlationId);
            if HasRef(w.s.t.orders[o], e.source, n.sourceOrderId)
            then r.order == o && r.action == Updated && r.w.s.t.orders.Keys == w.s.t.orders.Keys
            else o in r.w.s.t.orders && r.w.s.t.orders[o] == w.s.t.orders[o] && Lines(r.w.s, o) == Lines(w.s, o)
  {
    AppliedEffect(e, w, n, correlationId);
    UpdatedInPlace(e, w, n, correlationId);
    var r := UpsertOne(e, w, n, correlationId);
    OrderFrame(e, w.s, r.w.s, r.order, r.action, n, o);
  }

  lemma OrderFrame(e: Env, a: Store, b: Store, order: nat, action: Action, n: Normalized, o: nat)
    requires UniqueRefs(a.t.orders) && o in a.t.orders && order in b.t.orders
    requires b.t.orders == a.t.orders[order := b.t.orders[order]]
    requires forall other :: other != order ==> Lines(b, other) == Lines(a, other)
    requires action == Updated <==> RefInUse(a.t, e.source, n.sourceOrderId)
    requires action == Updated ==> order in a.t.orders
    requires order in a.t.orders ==> HasRef(a.t.orders[order], e.source, n.sourceOrderId)
    ensures if HasRef(a.t.orders[o], e.source, n.sourceOrderId)
            then order == o && action == Updated && b.t.orders.Keys == a.t.orders.Keys
            else o in b.t.orders && b.t.orders[o] == a.t.orders[o] && Lines(b, o) == Lines(a, o)
  {
  }

  lemma TurnOnlyAdds(e: Env, b: Batch, n: Normalized, correlationId: string)
    requires Sound(b.w.s)
    ensures OnlyAdds(b.w.s.t, ProcessOrder(e, b, n, correlationId).w.s.t)
  {
    if n.sourceOrderId != "" && UpsertOne(e, b.w, n, correlationId).Applied? {
      AppliedOnlyAdds(e, b.w, n, correlationId);
    }
  }

  lemma OnlyAddsTransitive(a: Tables, b: Tables, c: Tables)
    requires OnlyAdds(a, b) && OnlyAdds(b, c)
    ensures OnlyAdds(a, c)
  {
    forall o | o in a.orders
      ensures o in c.orders && SameIdentity(a.orders[o], c.orders[o])
    {
      assert SameIdentity(a.orders[o], b.orders[o]) && SameIdentity(b.orders[o], c.orders[o]);
    }
  }

  lemma {:induction false} RunOnlyAdds(e: Env, b: Batch, ns: seq<Normalized>, correlationId: string)
    requires Sound(b.w.s)
    ensures OnlyAdds(b.w.s.t, RunBatch(e, b, ns, correlationId).w.s.t)
  {
    if ns == [] {
    } else {
      var before := RunBatch(e, b, ns[..|ns| - 1], correlationId);
      RunOnlyAdds(e, b, ns[..|ns| - 1], correlationId);
      TurnOnlyAdds(e, before, ns[|ns| - 1], correlationId);
      OnlyAddsTransitive(b.w.s.t, before.w.s.t, RunBatch(e, b, ns, correlationId).w.s.t);
    }
  }
}
