/** Running the same batch again: which orders the second run refuses, exactly, and when the
    second run leaves the tables as the first one did. */
module SyncConvergence {
  import opened Wrappers
  import opened Database
  import opened Normalization
  import opened OrderSync
  import opened ProductLookup
  import opened SyncEffects

  /** Every item of the order is found in the cache. */
  ghost predicate Known(e: Env, cache: map<string, nat>, items: seq<NormItem>) {
    forall k :: 0 <= k < |items| ==> Ref(e, items[k]) in cache
  }

  // ---------------------------------------------------------------- orders whose items are all known

  /** The lines an order gets when each item is resolved by the given cache. */
  function ResolvedLines(e: Env, cache: map<string, nat>, items: seq<NormItem>): seq<Line> {
    if items == [] then []
    else
      var ref := Ref(e, items[0]);
      [Line(if ref in cache then Some(cache[ref]) else None, items[0].quantity, items[0].unitPrice)]
        + ResolvedLines(e, cache, items[1..])
  }

  /** Nothing about the catalogue changed. */
  predicate SameCatalogue(a: Work, b: Work) {
    a.cache == b.cache && a.s.t.products == b.s.t.products && a.s.t.customers == b.s.t.customers
  }

  lemma KnownItem(e: Env, w: Work, order: nat, item: NormItem)
    requires Sound(w.s) && order in w.s.t.orders && Live(w.cache, w.s.t.products) && Ref(e, item) in w.cache
    ensures var r := AddItem(e, w, order, item);
            && r.Done? && r.id == w.cache[Ref(e, item)] && SameCatalogue(w, r.w)
            && r.w.s.ids.product == w.s.ids.product && r.w.s.t.orders == w.s.t.orders
  {
  }

  lemma {:induction false} KnownItems(e: Env, w: Work, order: nat, items: seq<NormItem>)
    requires Sound(w.s) && order in w.s.t.orders && Live(w.cache, w.s.t.products) && Known(e, w.cache, items)
    ensures var r := AddItems(e, w, order, items);
            && r.Done? && SameCatalogue(w, r.w) && r.w.s.ids.product == w.s.ids.product
            && Lines(r.w.s, order) == Lines(w.s, order) + ResolvedLines(e, w.cache, items)
    decreases |items|
  {
    if items == [] {
      assert Lines(w.s, order) + [] == Lines(w.s, order);
    } else {
      KnownItem(e, w, order, items[0]);
      AddItemEffect(e, w, order, items[0], order);
      var r := AddItem(e, w, order, items[0]);
      forall k | 0 <= k < |items[1..]|
        ensures Ref(e, items[1..][k]) in r.w.cache
      {
        assert items[1..][k] == items[k + 1];
      }
      KnownItems(e, r.w, order, items[1..]);
      ConcatAssociates(Lines(w.s, order), Line(Some(r.id), items[0].quantity, items[0].unitPrice),
                       ResolvedLines(e, w.cache, items[1..]));
    }
  }

  /** Each item is in the cache, or a product already carries the SKU that would be generated for it. */
  ghost predicate KnownOrTaken(e: Env, cache: map<string, nat>, t: Tables, items: seq<NormItem>) {
    forall k :: 0 <= k < |items| ==> Ref(e, items[k]) in cache || SkuInUse(t, GeneratedSku(e, items[k]))
  }

  lemma TakenTail(e: Env, cache: map<string, nat>, t: Tables, items: seq<NormItem>)
    requires items != [] && KnownOrTaken(e, cache, t, items)
    ensures KnownOrTaken(e, cache, t, items[1..])
    ensures !Known(e, cache, items) && Ref(e, items[0]) in cache ==> !Known(e, cache, items[1..])
  {
    assert forall j :: 0 <= j < |items[1..]| ==> items[1..][j] == items[j + 1];
    if !Known(e, cache, items) && Ref(e, items[0]) in cache {
      var k :| 0 <= k < |items| && Ref(e, items[k]) !in cache;
      assert items[1..][k - 1] == items[k];
    }
  }

  /** When an item is not known and its generated SKU is taken, the order is refused before
      anything is remembered. */
  lemma {:induction false} TakenItems(e: Env, w: Work, order: nat, items: seq<NormItem>)
    requires Sound(w.s) && order in w.s.t.orders && Live(w.cache, w.s.t.products)
    requires !Known(e, w.cache, items) && KnownOrTaken(e, w.cache, w.s.t, items)
    ensures var r := AddItems(e, w, order, items);
            r.Raised? && r.err == SkuTaken && r.w.cache == w.cache
    decreases |items|
  {
    if Ref(e, items[0]) in w.cache {
      KnownItem(e, w, order, items[0]);
      TakenTail(e, w.cache, w.s.t, items);
      TakenItems(e, AddItem(e, w, order, items[0]).w, order, items[1..]);
    }
  }

  // ---------------------------------------------------------------- one order, sent again

  /** What an accepted order leaves behind: its reference and its e-mail address are in use, and
      each of its items is in the lookup or has had a product generated for it. */
  ghost predicate Settled(e: Env, s: Store, n: Normalized) {
    && n.sourceOrderId != ""
    && RefInUse(s.t, e.source, n.sourceOrderId)
    && EmailInUse(s.t, CustomerRow(e, n).email)
    && AllResolvable(e, s, n.items)
  }

  ghost predicate Resolvable(e: Env, s: Store, item: NormItem) {
    Ref(e, item) in Lookup(e, s) || SkuInUse(s.t, GeneratedSku(e, item))
  }

  /** The orders a later run accepts: they carry an e-mail and the cache knows all their items. */
  ghost predicate Repeatable(e: Env, cache: map<string, nat>, n: Normalized) {
    n.email != "" && Known(e, cache, n.items)
  }

  /** An order with known items goes in: a customer is added only for a new e-mail. */
  lemma KnownOrder(e: Env, w: Work, n: Normalized, correlationId: string)
    requires Sound(w.s) && Live(w.cache, w.s.t.products) && Repeatable(e, w.cache, n)
    ensures var r := UpsertOne(e, w, n, correlationId);
            && r.Applied? && r.w.cache == w.cache && r.w.s.t.products == w.s.t.products
            && r.w.s.ids.product == w.s.ids.product
            && Lines(r.w.s, r.order) == ResolvedLines(e, w.cache, n.items)
            && (EmailInUse(w.s.t, n.email) ==> r.w.s.t.customers == w.s.t.customers)
  {
    var c := ResolveCustomer(e, w.s, n);
    var o := UpsertOrder(e, c.s, c.id, n, correlationId);
    var emptied := DeleteLines(o.s, o.order);
    DeleteLinesEffect(o.s, o.order, o.order);
    KnownItems(e, Work(emptied, w.cache), o.order, n.items);
    assert [] + ResolvedLines(e, w.cache, n.items) == ResolvedLines(e, w.cache, n.items);
  }

  /** Sending a settled order again, exactly: it is refused for its e-mail when it has none, refused
      for a SKU when some item is not in the cache, and otherwise updates its row. */
  lemma SentAgain(e: Env, w: Work, n: Normalized, correlationId: string)
    requires Sound(w.s) && Settled(e, w.s, n)
    requires w.cache == Lookup(e, w.s)
    ensures var r := UpsertOne(e, w, n, correlationId);
            && (n.email == "" ==> r.Aborted? && r.err == EmailTaken)
            && (n.email != "" && !Known(e, w.cache, n.items) ==> r.Aborted? && r.err == SkuTaken)
            && (Repeatable(e, w.cache, n) ==>
                  && r.Applied? && r.action == Updated
                  && r.w.s.t.products == w.s.t.products && r.w.s.t.customers == w.s.t.customers)
            && r.w.cache == w.cache
  {
    LookupLive(e, w.s.t.products, w.s.ids.product);
    if Repeatable(e, w.cache, n) {
      KnownOrder(e, w, n, correlationId);
      AppliedEffect(e, w, n, correlationId);
    } else if n.email != "" {
      var c := ResolveCustomer(e, w.s, n);
      var o := UpsertOrder(e, c.s, c.id, n, correlationId);
      DeleteLinesEffect(o.s, o.order, o.order);
      var start := Work(DeleteLines(o.s, o.order), w.cache);
      forall k | 0 <= k < |n.items|
        ensures Ref(e, n.items[k]) in start.cache || SkuInUse(start.s.t, GeneratedSku(e, n.items[k]))
      {
        assert Resolvable(e, w.s, n.items[k]);
      }
      TakenItems(e, start, o.order, n.items);
    }
  }

  // ---------------------------------------------------------------- settled orders stay settled

  lemma SettledStays(e: Env, a: Store, b: Store, n: Normalized)
    requires Settled(e, a, n) && OnlyAdds(a.t, b.t) && NotBefore(a.ids, b.ids)
    ensures Settled(e, b, n)
  {
    var c :| c in a.t.customers && a.t.customers[c].email == CustomerRow(e, n).email;
    assert c in b.t.customers;
    var o :| o in a.t.orders && HasRef(a.t.orders[o], e.source, n.sourceOrderId);
    assert SameIdentity(a.t.orders[o], b.t.orders[o]);
    LookupGrows(e, a.t.products, a.ids.product, b.t.products, b.ids.product);
    forall k | 0 <= k < |n.items|
      ensures Resolvable(e, b, n.items[k])
    {
      assert Resolvable(e, a, n.items[k]);
      if SkuInUse(a.t, GeneratedSku(e, n.items[k])) {
        var p :| p in a.t.products && a.t.products[p].sku == GeneratedSku(e, n.items[k]);
        assert p in b.t.products;
      }
    }
  }

  // ---------------------------------------------------------------- the first run settles its orders

  /** The cache has no key the lookup would not have. */
  ghost predicate NoStrayKeys(e: Env, w: Work) {
    w.cache.Keys <= Lookup(e, w.s).Keys
  }

  lemma ResolvedItem(e: Env, w: Work, item: NormItem)
    requires Sound(w.s) && NoStrayKeys(e, w) && ResolveProduct(e, w, item).Done?
    ensures NoStrayKeys(e, ResolveProduct(e, w, item).w)
    ensures Resolvable(e, ResolveProduct(e, w, item).w.s, item)
  {
    if Ref(e, item) !in w.cache {
      var p := GeneratedProduct(e, item);
      LookupAfterInsert(e, w.s, p);
      var r := ResolveProduct(e, w, item);
      assert r.w.s.t.products[r.id].sku == GeneratedSku(e, item);
    }
  }

  lemma ResolvableStays(e: Env, a: Store, b: Store, item: NormItem)
    requires Resolvable(e, a, item) && Extends(a.t.products, b.t.products) && a.ids.product <= b.ids.product
    ensures Resolvable(e, b, item)
  {
    LookupGrows(e, a.t.products, a.ids.product, b.t.products, b.ids.product);
    if SkuInUse(a.t, GeneratedSku(e, item)) {
      var p :| p in a.t.products && a.t.products[p].sku == GeneratedSku(e, item);
      assert p in b.t.products;
    }
  }

  ghost predicate AllResolvable(e: Env, s: Store, items: seq<NormItem>) {
    forall k :: 0 <= k < |items| ==> Resolvable(e, s, items[k])
  }

  lemma AllResolvableCons(e: Env, s: Store, items: seq<NormItem>)
    requires items != [] && Resolvable(e, s, items[0]) && AllResolvable(e, s, items[1..])
    ensures AllResolvable(e, s, items)
  {
    forall k | 0 <= k < |items|
      ensures Resolvable(e, s, items[k])
    {
      if k > 0 { assert Resolvable(e, s, items[1..][k - 1]); }
    }
  }

  lemma AddedItemResolvable(e: Env, w: Work, order: nat, item: NormItem)
    requires Sound(w.s) && order in w.s.t.orders && NoStrayKeys(e, w) && AddItem(e, w, order, item).Done?
    ensures NoStrayKeys(e, AddItem(e, w, order, item).w)
    ensures Resolvable(e, AddItem(e, w, order, item).w.s, item)
  {
    ResolvedItem(e, w, item);
  }

  lemma {:induction false} AddedItemsResolvable(e: Env, w: Work, order: nat, items: seq<NormItem>)
    requires Sound(w.s) && order in w.s.t.orders && NoStrayKeys(e, w) && AddItems(e, w, order, items).Done?
    ensures NoStrayKeys(e, AddItems(e, w, order, items).w)
    ensures AllResolvable(e, AddItems(e, w, order, items).w.s, items)
    decreases |items|
  {
    if items == [] {
    } else {
      AddedItemResolvable(e, w, order, items[0]);
      var first := AddItem(e, w, order, items[0]);
      AddedItemsResolvable(e, first.w, order, items[1..]);
      var r := AddItems(e, first.w, order, items[1..]);
      ResolvableStays(e, first.w.s, r.w.s, items[0]);
      AllResolvableCons(e, r.w.s, items);
    }
  }

  lemma AcceptedSettles(e: Env, w: Work, n: Normalized, correlationId: string)
    requires Sound(w.s) && NoStrayKeys(e, w) && n.sourceOrderId != ""
    requires UpsertOne(e, w, n, correlationId).Applied?
    ensures var r := UpsertOne(e, w, n, correlationId);
            NoStrayKeys(e, r.w) && Settled(e, r.w.s, n)
  {
    var c := ResolveCustomer(e, w.s, n);
    var o := UpsertOrder(e, c.s, c.id, n, correlationId);
    DeleteLinesEffect(o.s, o.order, o.order);
    AddedItemsResolvable(e, Work(DeleteLines(o.s, o.order), w.cache), o.order, n.items);
    AppliedEffect(e, w, n, correlationId);
    var r := UpsertOne(e, w, n, correlationId);
    assert HasRef(r.w.s.t.orders[r.order], e.source, n.sourceOrderId);
    assert r.w.s.t.customers[r.w.s.t.orders[r.order].customer].email == CustomerRow(e, n).email;
  }

  ghost predicate AllSettled(e: Env, s: Store, ns: seq<Normalized>) {
    forall i :: 0 <= i < |ns| ==> Settled(e, s, ns[i])
  }

  lemma TurnNeverDropsFailed(e: Env, b: Batch, n: Normalized, correlationId: string)
    requires Sound(b.w.s)
    ensures ProcessOrder(e, b, n, correlationId).result.failed >= b.result.failed
  {
    var _, _ := TurnAudited(e, b, n, correlationId);
  }

  lemma {:induction false} FailedNeverDrops(e: Env, b: Batch, ns: seq<Normalized>, correlationId: string)
    requires Sound(b.w.s)
    ensures RunBatch(e, b, ns, correlationId).result.failed >= b.result.failed
  {
    if ns == [] {
    } else {
      FailedNeverDrops(e, b, ns[..|ns| - 1], correlationId);
      TurnNeverDropsFailed(e, RunBatch(e, b, ns[..|ns| - 1], correlationId), ns[|ns| - 1], correlationId);
    }
  }

  /** A turn without a failure. */
  lemma SuccessfulTurn(e: Env, b: Batch, n: Normalized, correlationId: string)
    requires Sound(b.w.s) && ProcessOrder(e, b, n, correlationId).result.failed == b.result.failed
    ensures n.sourceOrderId != "" && UpsertOne(e, b.w, n, correlationId).Applied?
    ensures var r := UpsertOne(e, b.w, n, correlationId);
            var p := ProcessOrder(e, b, n, correlationId);
            p.w == r.w.(s := r.w.s.(t := p.w.s.t)) && p.w.s.t == r.w.s.t.(syncAudits := p.w.s.t.syncAudits)
  {
  }

  lemma SettlingTurn(e: Env, b: Batch, n: Normalized, correlationId: string)
    requires Sound(b.w.s) && NoStrayKeys(e, b.w)
    requires ProcessOrder(e, b, n, correlationId).result.failed == b.result.failed
    ensures var r := ProcessOrder(e, b, n, correlationId); NoStrayKeys(e, r.w) && Settled(e, r.w.s, n)
  {
    SuccessfulTurn(e, b, n, correlationId);
    AcceptedSettles(e, b.w, n, correlationId);
    SettledIgnoresAudits(e, UpsertOne(e, b.w, n, correlationId).w.s, ProcessOrder(e, b, n, correlationId).w.s, n);
  }

  lemma AllSettledStays(e: Env, a: Store, b: Store, ns: seq<Normalized>)
    requires AllSettled(e, a, ns) && OnlyAdds(a.t, b.t) && NotBefore(a.ids, b.ids)
    ensures AllSettled(e, b, ns)
  {
    forall i | 0 <= i < |ns|
      ensures Settled(e, b, ns[i])
    {
      SettledStays(e, a, b, ns[i]);
    }
  }

  lemma AllSettledSnoc(e: Env, s: Store, ns: seq<Normalized>)
    requires ns != [] && AllSettled(e, s, ns[..|ns| - 1]) && Settled(e, s, ns[|ns| - 1])
    ensures AllSettled(e, s, ns)
  {
    forall i | 0 <= i < |ns|
      ensures Settled(e, s, ns[i])
    {
      if i < |ns| - 1 { assert Settled(e, s, ns[..|ns| - 1][i]); }
    }
  }

  lemma SettlingTurnInBatch(e: Env, mid: Batch, r: Batch, ns: seq<Normalized>, correlationId: string)
    requires ns != [] && Sound(mid.w.s) && NoStrayKeys(e, mid.w) && AllSettled(e, mid.w.s, ns[..|ns| - 1])
    requires r == ProcessOrder(e, mid, ns[|ns| - 1], correlationId) && r.result.failed <= mid.result.failed
    ensures NoStrayKeys(e, r.w) && AllSettled(e, r.w.s, ns)
  {
    TurnNeverDropsFailed(e, mid, ns[|ns| - 1], correlationId);
    SettlingTurn(e, mid, ns[|ns| - 1], correlationId);
    TurnOnlyAdds(e, mid, ns[|ns| - 1], correlationId);
    AllSettledStays(e, mid.w.s, r.w.s, ns[..|ns| - 1]);
    AllSettledSnoc(e, r.w.s, ns);
  }

  /** A run without a failure settles every order of its batch. */
  lemma {:induction false} RunSettles(e: Env, b: Batch, ns: seq<Normalized>, correlationId: string)
    requires Sound(b.w.s) && NoStrayKeys(e, b.w)
    requires RunBatch(e, b, ns, correlationId).result.failed == b.result.failed
    ensures NoStrayKeys(e, RunBatch(e, b, ns, correlationId).w)
    ensures AllSettled(e, RunBatch(e, b, ns, correlationId).w.s, ns)
  {
    if ns == [] {
    } else {
      var mid := RunBatch(e, b, ns[..|ns| - 1], correlationId);
      var r := RunBatch(e, b, ns, correlationId);
      FailedNeverDrops(e, b, ns[..|ns| - 1], correlationId);
      TurnNeverDropsFailed(e, mid, ns[|ns| - 1], correlationId);
      RunSettles(e, b, ns[..|ns| - 1], correlationId);
      SettlingTurnInBatch(e, mid, r, ns, correlationId);
    }
  }

  lemma SettledIgnoresAudits(e: Env, a: Store, b: Store, n: Normalized)
    requires b == a.(t := a.t.(syncAudits := b.t.syncAudits)) && Settled(e, a, n)
    ensures Settled(e, b, n)
  {
    forall k | 0 <= k < |n.items|
      ensures Resolvable(e, b, n.items[k])
    {
      assert Resolvable(e, a, n.items[k]);
    }
  }

  // ---------------------------------------------------------------- the second run

  ghost function CountRepeatable(e: Env, cache: map<string, nat>, ns: seq<Normalized>): (r: nat)
    ensures r <= |ns|
    ensures r == |ns| <==> forall i :: 0 <= i < |ns| ==> Repeatable(e, cache, ns[i])
  {
    if ns == [] then 0
    else
      CountRepeatable(e, cache, ns[..|ns| - 1]) + if Repeatable(e, cache, ns[|ns| - 1]) then 1 else 0
  }

  lemma SettledTurn(e: Env, b: Batch, n: Normalized, correlationId: string)
    requires Sound(b.w.s) && Settled(e, b.w.s, n) && b.w.cache == Lookup(e, b.w.s)
    ensures var r := ProcessOrder(e, b, n, correlationId);
            && SameCatalogue(b.w, r.w) && r.w.cache == Lookup(e, r.w.s)
            && r.result.created == b.result.created
            && r.result.updated == b.result.updated + (if Repeatable(e, b.w.cache, n) then 1 else 0)
            && r.result.failed == b.result.failed + (if Repeatable(e, b.w.cache, n) then 0 else 1)
  {
    SentAgain(e, b.w, n, correlationId);
    var r := ProcessOrder(e, b, n, correlationId);
    LookupStable(e, b.w.s.t.products, b.w.s.ids.product, r.w.s.t.products, r.w.s.ids.product);
  }

  /** Over settled orders a run changes no product, no customer and no cache entry; it updates
      exactly the repeatable orders and refuses exactly the others. */
  lemma {:induction false} SettledRun(e: Env, b: Batch, ns: seq<Normalized>, correlationId: string)
    requires Sound(b.w.s) && AllSettled(e, b.w.s, ns) && b.w.cache == Lookup(e, b.w.s)
    ensures var r := RunBatch(e, b, ns, correlationId);
            var good := CountRepeatable(e, b.w.cache, ns);
            && SameCatalogue(b.w, r.w) && r.w.cache == Lookup(e, r.w.s)
            && r.result.created == b.result.created
            && r.result.updated == b.result.updated + good
            && r.result.failed == b.result.failed + |ns| - good
  {
    if ns == [] {
    } else {
      var before, n := ns[..|ns| - 1], ns[|ns| - 1];
      var mid := RunBatch(e, b, before, correlationId);
      forall i | 0 <= i < |before|
        ensures Settled(e, b.w.s, before[i])
      {
        assert before[i] == ns[i];
      }
      SettledRun(e, b, before, correlationId);
      RunOnlyAdds(e, b, before, correlationId);
      assert Settled(e, b.w.s, ns[|ns| - 1]);
      SettledStays(e, b.w.s, mid.w.s, n);
      SettledTurn(e, mid, n, correlationId);
    }
  }

  /** Convergence of the counters, exactly. After a run without a failure, a second run over the
      same orders creates nothing and updates or refuses each of them; none is refused if and only
      if every order carries an e-mail and every item is found in the product lookup. */
  lemma SecondRunExact(e: Env, s: Store, ns: seq<Normalized>, again: seq<Normalized>, c1: string, c2: string)
    requires Sound(s) && Sync(e, s, ns, c1).result.failed == 0
    requires SameReadings(ns, again)
    ensures var s1 := Sync(e, s, ns, c1).w.s;
            var second := Sync(e, s1, again, c2).result;
            && second.created == 0
            && second.updated + second.failed == |ns|
            && second.updated == CountRepeatable(e, Lookup(e, s1), again)
            && (second.failed == 0 <==>
                  forall i :: 0 <= i < |ns| ==> Repeatable(e, Lookup(e, s1), ns[i]))
  {
    var first := Batch(Work(s, Lookup(e, s)), EMPTY_RESULT);
    RunSettles(e, first, ns, c1);
    var s1 := Sync(e, s, ns, c1).w.s;
    forall i | 0 <= i < |again|
      ensures Settled(e, s1, again[i])
      ensures Repeatable(e, Lookup(e, s1), ns[i]) <==> Repeatable(e, Lookup(e, s1), again[i])
    {
      assert Settled(e, s1, ns[i]) && SameReading(ns[i], again[i]);
      SameItems(e, s1, ns[i], again[i]);
    }
    SettledRun(e, Batch(Work(s1, Lookup(e, s1)), EMPTY_RESULT), again, c2);
  }

  lemma SameItems(e: Env, s: Store, a: Normalized, b: Normalized)
    requires SameReading(a, b)
    ensures Settled(e, s, a) ==> Settled(e, s, b)
    ensures Repeatable(e, Lookup(e, s), a) <==> Repeatable(e, Lookup(e, s), b)
  {
    assert a.items == b.items && a.email == b.email && a.sourceOrderId == b.sourceOrderId;
  }
}
