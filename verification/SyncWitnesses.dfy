/** The cases that the convergence and refinement theorems leave out, each shown to go wrong. */
module SyncWitnesses {
  import opened Wrappers
  import opened Database
  import opened Normalization
  import opened OrderSync
  import opened ProductLookup
  import opened SyncEffects
  import opened SyncConvergence
  import opened SyncRepeat
  import opened SyncCache

  lemma RunOfOne(e: Env, b: Batch, ns: seq<Normalized>, c: string)
    requires Sound(b.w.s) && |ns| == 1
    ensures RunBatch(e, b, ns, c) == ProcessOrder(e, b, ns[0], c)
  {
    assert ns[..0] == [];
  }

  lemma RunOfTwo(e: Env, b: Batch, ns: seq<Normalized>, c: string)
    requires Sound(b.w.s) && |ns| == 2
    ensures RunBatch(e, b, ns, c) == ProcessOrder(e, ProcessOrder(e, b, ns[0], c), ns[1], c)
  {
    var before := ns[..1];
    RunOfOne(e, b, before, c);
    assert ns[..|ns| - 1] == before;
  }

  // ---------------------------------------------------------------- single orders

  lemma ItemlessOrder(e: Env, w: Work, n: Normalized)
    requires Sound(w.s) && n.items == [] && ResolveCustomer(e, w.s, n).Written?
    ensures UpsertOne(e, w, n, "").Applied?
  {
    var c := ResolveCustomer(e, w.s, n);
    var o := UpsertOrder(e, c.s, c.id, n, "");
    DeleteLinesEffect(o.s, o.order, o.order);
  }

  lemma GeneratedItem(e: Env, w: Work, order: nat, items: seq<NormItem>)
    requires Sound(w.s) && order in w.s.t.orders && items != []
    requires Ref(e, items[0]) !in w.cache && !SkuInUse(w.s.t, GeneratedSku(e, items[0]))
    ensures var r := AddItem(e, w, order, items[0]);
            && r.Done? && AddItems(e, w, order, items) == AddItems(e, r.w, order, items[1..])
            && r.w.s.t.products == w.s.t.products[w.s.ids.product := GeneratedProduct(e, items[0])]
            && r.w.s.ids.product == w.s.ids.product + 1
            && r.w.cache == Remember(e, w.cache, GeneratedProduct(e, items[0]), w.s.ids.product)
  {
  }

  /** An order with one unknown item generates a product for it. */
  lemma GeneratingOrder(e: Env, w: Work, n: Normalized, item: NormItem)
    requires Sound(w.s) && n.items == [item] && n.email != ""
    requires Ref(e, item) !in w.cache && !SkuInUse(w.s.t, GeneratedSku(e, item))
    ensures var u := UpsertOne(e, w, n, "");
            && u.Applied?
            && u.w.s.t.products == w.s.t.products[w.s.ids.product := GeneratedProduct(e, item)]
            && u.w.s.ids.product == w.s.ids.product + 1
            && u.w.cache == Remember(e, w.cache, GeneratedProduct(e, item), w.s.ids.product)
            && (u.action == Created <==> !RefInUse(w.s.t, e.source, n.sourceOrderId))
  {
    var c := ResolveCustomer(e, w.s, n);
    var o := UpsertOrder(e, c.s, c.id, n, "");
    DeleteLinesEffect(o.s, o.order, o.order);
    var start := Work(DeleteLines(o.s, o.order), w.cache);
    GeneratedItem(e, start, o.order, n.items);
  }

  /** An item whose cache entry names a product that is gone is refused by the foreign key. */
  lemma VanishedProductRefused(e: Env, w: Work, n: Normalized)
    requires Sound(w.s) && n.email != "" && n.items != []
    requires Ref(e, n.items[0]) in w.cache && w.cache[Ref(e, n.items[0])] !in w.s.t.products
    ensures var u := UpsertOne(e, w, n, ""); u.Aborted? && u.err == NoSuchProduct
  {
    var c := ResolveCustomer(e, w.s, n);
    var o := UpsertOrder(e, c.s, c.id, n, "");
    DeleteLinesEffect(o.s, o.order, o.order);
    assert AddItem(e, Work(DeleteLines(o.s, o.order), w.cache), o.order, n.items[0]).Raised?;
  }

  /** An order that generates a product for its first item and is then refused for its second
      leaves the generated product in the cache. */
  lemma RefusedAfterGenerating(e: Env, w: Work, n: Normalized, first: NormItem, second: NormItem)
    requires Sound(w.s) && n.items == [first, second] && n.email != ""
    requires Ref(e, first) !in w.cache && !SkuInUse(w.s.t, GeneratedSku(e, first))
    requires Ref(e, second) !in Remember(e, w.cache, GeneratedProduct(e, first), w.s.ids.product)
    requires SkuInUse(w.s.t, GeneratedSku(e, second))
    ensures var u := UpsertOne(e, w, n, "");
            && u.Aborted? && u.err == SkuTaken
            && u.w.cache == Remember(e, w.cache, GeneratedProduct(e, first), w.s.ids.product)
            && u.w.s.ids.product >= w.s.ids.product + 1
  {
    var c := ResolveCustomer(e, w.s, n);
    var o := UpsertOrder(e, c.s, c.id, n, "");
    DeleteLinesEffect(o.s, o.order, o.order);
    var start := Work(DeleteLines(o.s, o.order), w.cache);
    GeneratedItem(e, start, o.order, n.items);
    var r := AddItem(e, start, o.order, first);
    var p :| p in w.s.t.products && w.s.t.products[p].sku == GeneratedSku(e, second);
    assert p in r.w.s.t.products;
    assert n.items[1..][0] == second;
    assert ResolveProduct(e, r.w, second).Raised?;
  }

  // ---------------------------------------------------------------- convergence fails

  lemma SyncOfOne(e: Env, s: Store, ns: seq<Normalized>)
    requires Sound(s) && |ns| == 1 && ns[0].sourceOrderId != ""
    ensures var w := Work(s, Lookup(e, s));
            Sync(e, s, ns, "") == Settle(e, Batch(w, EMPTY_RESULT), ns[0], UpsertOne(e, w, ns[0], ""), "")
  {
    RunOfOne(e, Batch(Work(s, Lookup(e, s)), EMPTY_RESULT), ns, "");
  }

  lemma AllOfOne(e: Env, cache: map<string, nat>, ns: seq<Normalized>)
    requires |ns| == 1
    ensures (forall i :: 0 <= i < |ns| ==> Repeatable(e, cache, ns[i])) <==> Repeatable(e, cache, ns[0])
  {
  }

  lemma ReadingsAreReadings(ns: seq<Normalized>)
    ensures SameReadings(ns, ns)
  {
  }

  /** Sending a single accepted order again. */
  lemma OneSentAgain(e: Env, s: Store, s1: Store, ns: seq<Normalized>)
    requires Sound(s) && |ns| == 1 && Sync(e, s, ns, "").result.failed == 0 && s1 == Sync(e, s, ns, "").w.s
    ensures Sync(e, s1, ns, "").result.failed == 0 <==> Repeatable(e, Lookup(e, s1), ns[0])
    ensures Sync(e, s1, ns, "").result.failed <= 1
  {
    ReadingsAreReadings(ns);
    SecondRunExact(e, s, ns, ns, "", "");
    AllOfOne(e, Lookup(e, s1), ns);
  }

  lemma CreatedWhenNew(e: Env, w: Work, n: Normalized)
    requires Sound(w.s) && UpsertOne(e, w, n, "").Applied? && !RefInUse(w.s.t, e.source, n.sourceOrderId)
    ensures UpsertOne(e, w, n, "").action == Created
  {
    AppliedEffect(e, w, n, "");
  }

  lemma EmaillessOrderAccepted(e: Env, s: Store, ns: seq<Normalized>)
    requires Sound(s) && |ns| == 1 && ns[0].sourceOrderId != "" && ns[0].email == "" && ns[0].items == []
    requires !EmailInUse(s.t, FallbackEmail(ns[0])) && !RefInUse(s.t, e.source, ns[0].sourceOrderId)
    ensures var first := Sync(e, s, ns, "").result; first.created == 1 && first.failed == 0
  {
    var w := Work(s, Lookup(e, s));
    ItemlessOrder(e, w, ns[0]);
    CreatedWhenNew(e, w, ns[0]);
    SyncOfOne(e, s, ns);
  }

  /** In any store, an order without e-mail and items is created when its fallback address is
      free, and refused when it is sent again, because the address is inserted a second time. */
  lemma EmaillessOrderFails(e: Env, s: Store, ns: seq<Normalized>)
    requires Sound(s) && |ns| == 1 && ns[0].sourceOrderId != "" && ns[0].email == "" && ns[0].items == []
    requires !EmailInUse(s.t, FallbackEmail(ns[0])) && !RefInUse(s.t, e.source, ns[0].sourceOrderId)
    ensures var first := Sync(e, s, ns, "");
            && first.result.created == 1 && first.result.failed == 0
            && Sync(e, first.w.s, ns, "").result.failed == 1
  {
    EmaillessOrderAccepted(e, s, ns);
    OneSentAgain(e, s, Sync(e, s, ns, "").w.s, ns);
  }

  lemma LookupAfterGenerating(e: Env, s: Store, n: Normalized, item: NormItem)
    requires Sound(s) && n.items == [item] && n.email != "" && n.sourceOrderId != ""
    requires Ref(e, item) !in Lookup(e, s) && !SkuInUse(s.t, GeneratedSku(e, item))
    ensures var u := UpsertOne(e, Work(s, Lookup(e, s)), n, "");
            u.Applied? && Lookup(e, u.w.s) == AddKeys(e, Lookup(e, s), GeneratedProduct(e, item), s.ids.product)
  {
    GeneratingOrder(e, Work(s, Lookup(e, s)), n, item);
    LookupAfterInsert(e, s, GeneratedProduct(e, item));
  }

  lemma UnknownItemAccepted(e: Env, s: Store, ns: seq<Normalized>, item: NormItem)
    requires Sound(s) && |ns| == 1 && ns[0].sourceOrderId != "" && ns[0].email != "" && ns[0].items == [item]
    requires Ref(e, item) !in Lookup(e, s) && !SkuInUse(s.t, GeneratedSku(e, item))
    ensures var first := Sync(e, s, ns, "");
            && first.result.failed == 0
            && Lookup(e, first.w.s) == AddKeys(e, Lookup(e, s), GeneratedProduct(e, item), s.ids.product)
  {
    LookupAfterGenerating(e, s, ns[0], item);
    SyncOfOne(e, s, ns);
  }

  lemma AddedKeys(e: Env, cache: map<string, nat>, p: Product, id: nat, k: string)
    requires k !in cache
    ensures k in AddKeys(e, cache, p, id) <==> k in {e.lower(p.name), e.lower(p.sku), e.showId(id)}
  {
  }

  lemma UnknownItemAgain(e: Env, s: Store, s1: Store, ns: seq<Normalized>, item: NormItem)
    requires Sound(s) && |ns| == 1 && ns[0].email != "" && ns[0].items == [item]
    requires Sync(e, s, ns, "").result.failed == 0 && s1 == Sync(e, s, ns, "").w.s
    ensures Sync(e, s1, ns, "").result.failed == 0 <==> Ref(e, item) in Lookup(e, s1)
  {
    OneSentAgain(e, s, s1, ns);
    OnlyItem(e, Lookup(e, s1), ns[0], item);
  }

  /** In any store, an order with one unknown item is accepted when the SKU is free; sent again,
      it is accepted if and only if its item is referred to by the name, the SKU or the id of the
      product that was generated for it. */
  lemma UnknownItemSentAgain(e: Env, s: Store, ns: seq<Normalized>, item: NormItem)
    requires Sound(s) && |ns| == 1 && ns[0].sourceOrderId != "" && ns[0].email != "" && ns[0].items == [item]
    requires Ref(e, item) !in Lookup(e, s) && !SkuInUse(s.t, GeneratedSku(e, item))
    ensures var p := GeneratedProduct(e, item);
            var first := Sync(e, s, ns, "");
            && first.result.failed == 0
            && (Sync(e, first.w.s, ns, "").result.failed == 0 <==>
                  Ref(e, item) in {e.lower(p.name), e.lower(p.sku), e.showId(s.ids.product)})
  {
    UnknownItemAccepted(e, s, ns, item);
    UnknownItemAgain(e, s, Sync(e, s, ns, "").w.s, ns, item);
    AddedKeys(e, Lookup(e, s), GeneratedProduct(e, item), s.ids.product, Ref(e, item));
  }

  lemma OnlyItem(e: Env, cache: map<string, nat>, n: Normalized, item: NormItem)
    requires n.items == [item] && n.email != ""
    ensures Repeatable(e, cache, n) <==> Ref(e, item) in cache
  {
    assert n.items[0] == item;
  }

  // ---------------------------------------------------------------- an accepted order is rewritten

  lemma KnownSpared(e: Env, b: Batch, n: Normalized, m: Normalized)
    requires Sound(b.w.s) && Live(b.w.cache, b.w.s.t.products) && Repeatable(e, b.w.cache, n)
    requires n.sourceOrderId != "" && m.sourceOrderId != n.sourceOrderId
    ensures var r := ProcessOrder(e, ProcessOrder(e, b, n, ""), m, "");
            exists o :: o in r.w.s.t.orders && HasRef(r.w.s.t.orders[o], e.source, n.sourceOrderId)
                        && Lines(r.w.s, o) == ResolvedLines(e, b.w.cache, n.items)
  {
    var mid := ProcessOrder(e, b, n, "");
    TurnStores(e, b, n, "");
    TurnKeepsCatalogue(e, b, n, "");
    var o :| StoredAt(e, mid.w, n, o);
    StoredHasRef(e, mid.w, n, o);
    TurnSpares(e, mid, m, "", o);
    var r := ProcessOrder(e, mid, m, "");
    assert o in r.w.s.t.orders && HasRef(r.w.s.t.orders[o], e.source, n.sourceOrderId);
  }

  /** The stored lines of the order with a given reference. */
  ghost function LinesUnder(e: Env, s: Store, ref: string): seq<Line>
    requires RefInUse(s.t, e.source, ref)
  {
    Lines(s, FindRef(s.t, e.source, ref).value)
  }

  lemma LinesUnderIs(e: Env, s: Store, ref: string, o: nat)
    requires UniqueRefs(s.t.orders) && o in s.t.orders && HasRef(s.t.orders[o], e.source, ref)
    ensures RefInUse(s.t, e.source, ref) && LinesUnder(e, s, ref) == Lines(s, o)
  {
  }

  lemma FirstOfTwo(e: Env, s: Store, ns: seq<Normalized>)
    requires Sound(s) && |ns| == 2 && Repeatable(e, Lookup(e, s), ns[0])
    requires ns[0].sourceOrderId != "" && ns[1].sourceOrderId != ns[0].sourceOrderId
    ensures var r := Sync(e, s, ns, "").w.s;
            && RefInUse(r.t, e.source, ns[0].sourceOrderId)
            && LinesUnder(e, r, ns[0].sourceOrderId) == ResolvedLines(e, Lookup(e, s), ns[0].items)
  {
    var b := Batch(Work(s, Lookup(e, s)), EMPTY_RESULT);
    LookupLive(e, s.t.products, s.ids.product);
    SyncOfTwo(e, s, ns);
    KnownSpared(e, b, ns[0], ns[1]);
    var r := Sync(e, s, ns, "").w.s;
    var o :| o in r.t.orders && HasRef(r.t.orders[o], e.source, ns[0].sourceOrderId)
             && Lines(r, o) == ResolvedLines(e, Lookup(e, s), ns[0].items);
    LinesUnderIs(e, r, ns[0].sourceOrderId, o);
  }

  /** A second run can rewrite the lines of an order that it accepts. The first order names a
      stored product; the second generates a product with the same name; from then on the name
      stands for the generated product, and the first order moves to it when it is sent again. */
  lemma GeneratedNameShadows(e: Env, s: Store, ns: seq<Normalized>, known: NormItem, unknown: NormItem)
    requires Sound(s) && |ns| == 2 && ns[0].sourceOrderId != "" && ns[1].sourceOrderId != ""
    requires ns[1].sourceOrderId != ns[0].sourceOrderId && ns[0].email != "" && ns[1].email != ""
    requires ns[0].items == [known] && ns[1].items == [unknown]
    requires Ref(e, known) in Lookup(e, s) && e.lower(BaseName(unknown)) == Ref(e, known)
    requires Ref(e, unknown) !in Lookup(e, s) && !SkuInUse(s.t, GeneratedSku(e, unknown))
    requires e.showId(s.ids.product) != Ref(e, known)
    ensures var s1 := Sync(e, s, ns, "").w.s;
            var s2 := Sync(e, s1, ns, "").w.s;
            && RefInUse(s1.t, e.source, ns[0].sourceOrderId) && RefInUse(s2.t, e.source, ns[0].sourceOrderId)
            && LinesUnder(e, s1, ns[0].sourceOrderId)
                 == [Line(Some(Lookup(e, s)[Ref(e, known)]), known.quantity, known.unitPrice)]
            && LinesUnder(e, s2, ns[0].sourceOrderId)
                 == [Line(Some(s.ids.product), known.quantity, known.unitPrice)]
            && Lookup(e, s)[Ref(e, known)] != s.ids.product
  {
    var cache := Lookup(e, s);
    LookupLive(e, s.t.products, s.ids.product);
    OnlyItem(e, cache, ns[0], known);
    FirstOfTwo(e, s, ns);
    LineOfOne(e, cache, ns[0].items, known);
    GeneratedAfterKnown(e, s, ns, unknown);
    var s1 := Sync(e, s, ns, "").w.s;
    OnlyItem(e, Lookup(e, s1), ns[0], known);
    FirstOfTwo(e, s1, ns);
    LineOfOne(e, Lookup(e, s1), ns[0].items, known);
  }

  lemma LineOfOne(e: Env, cache: map<string, nat>, items: seq<NormItem>, item: NormItem)
    requires items == [item] && Ref(e, item) in cache
    ensures ResolvedLines(e, cache, items) == [Line(Some(cache[Ref(e, item)]), item.quantity, item.unitPrice)]
  {
    assert items[1..] == [];
  }

  /** A turn that generates a product adds its keys to the lookup. */
  lemma GeneratingTurn(e: Env, b: Batch, n: Normalized, item: NormItem)
    requires Sound(b.w.s) && b.w.cache == Lookup(e, b.w.s)
    requires n.sourceOrderId != "" && n.email != "" && n.items == [item]
    requires Ref(e, item) !in b.w.cache && !SkuInUse(b.w.s.t, GeneratedSku(e, item))
    ensures var r := ProcessOrder(e, b, n, "");
            && r.result.failed == b.result.failed
            && Lookup(e, r.w.s) == AddKeys(e, b.w.cache, GeneratedProduct(e, item), b.w.s.ids.product)
  {
    LookupAfterGenerating(e, b.w.s, n, item);
  }

  lemma GeneratedAfterKnown(e: Env, s: Store, ns: seq<Normalized>, unknown: NormItem)
    requires Sound(s) && |ns| == 2 && ns[0].sourceOrderId != "" && ns[1].sourceOrderId != ""
    requires ns[1].email != "" && Repeatable(e, Lookup(e, s), ns[0]) && ns[1].items == [unknown]
    requires Ref(e, unknown) !in Lookup(e, s) && !SkuInUse(s.t, GeneratedSku(e, unknown))
    ensures Lookup(e, Sync(e, s, ns, "").w.s)
              == AddKeys(e, Lookup(e, s), GeneratedProduct(e, unknown), s.ids.product)
  {
    var b := Batch(Work(s, Lookup(e, s)), EMPTY_RESULT);
    LookupLive(e, s.t.products, s.ids.product);
    TurnKeepsCatalogue(e, b, ns[0], "");
    var mid := ProcessOrder(e, b, ns[0], "");
    assert Lookup(e, mid.w.s) == mid.w.cache == Lookup(e, s);
    GeneratingTurn(e, mid, ns[1], unknown);
    SyncOfTwo(e, s, ns);
  }

  lemma SyncOfTwo(e: Env, s: Store, ns: seq<Normalized>)
    requires Sound(s) && |ns| == 2
    ensures var b := Batch(Work(s, Lookup(e, s)), EMPTY_RESULT);
            Sync(e, s, ns, "") == ProcessOrder(e, ProcessOrder(e, b, ns[0], ""), ns[1], "")
  {
    RunOfTwo(e, Batch(Work(s, Lookup(e, s)), EMPTY_RESULT), ns, "");
  }

  // ---------------------------------------------------------------- the cache outlives the table

  lemma RefusedTurn(e: Env, b: Batch, n: Normalized, first: NormItem, second: NormItem)
    requires Sound(b.w.s) && b.w.cache == Lookup(e, b.w.s)
    requires n.sourceOrderId != "" && n.email != "" && n.items == [first, second]
    requires Ref(e, first) !in b.w.cache && !SkuInUse(b.w.s.t, GeneratedSku(e, first))
    requires Ref(e, second) !in Remember(e, b.w.cache, GeneratedProduct(e, first), b.w.s.ids.product)
    requires SkuInUse(b.w.s.t, GeneratedSku(e, second))
    ensures var r := ProcessOrder(e, b, n, "");
            && r.result.failed == b.result.failed + 1
            && r.w.cache == Remember(e, b.w.cache, GeneratedProduct(e, first), b.w.s.ids.product)
            && r.w.s.t.products == b.w.s.t.products && Lookup(e, r.w.s) == b.w.cache
  {
    RefusedAfterGenerating(e, b.w, n, first, second);
    var r := ProcessOrder(e, b, n, "");
    LookupStable(e, b.w.s.t.products, b.w.s.ids.product, r.w.s.t.products, r.w.s.ids.product);
  }

  lemma VanishedTurn(e: Env, b: Batch, n: Normalized)
    requires Sound(b.w.s) && n.sourceOrderId != "" && n.email != "" && n.items != []
    requires Ref(e, n.items[0]) in b.w.cache && b.w.cache[Ref(e, n.items[0])] !in b.w.s.t.products
    ensures ProcessOrder(e, b, n, "").result.failed == b.result.failed + 1
  {
    VanishedProductRefused(e, b.w, n);
  }

  lemma FreshOfTwo(e: Env, b: Batch, n: Normalized, m: Normalized)
    requires Sound(b.w.s)
    ensures FreshRun(e, b, [n, m], "") == FreshTurn(e, FreshTurn(e, b, n, ""), m, "")
  {
    assert [n, m][..1] == [n] && [n][..0] == [];
    assert FreshRun(e, b, [n], "") == FreshTurn(e, b, n, "");
  }

  /** Without the condition on rolled-back orders the cached engine and the fold of independent
      orders part: after a refused order that had generated a product, an order that names that
      product is refused by the foreign key, while a fresh lookup would have let it in. */
  lemma RolledBackProductLingers(e: Env, b: Batch, n: Normalized, m: Normalized,
                                 first: NormItem, second: NormItem, third: NormItem)
    requires Sound(b.w.s) && b.w.cache == Lookup(e, b.w.s)
    requires n.sourceOrderId != "" && n.email != "" && n.items == [first, second]
    requires m.sourceOrderId != "" && m.email != "" && m.items == [third]
    requires Ref(e, first) !in b.w.cache && !SkuInUse(b.w.s.t, GeneratedSku(e, first))
    requires Ref(e, second) !in Remember(e, b.w.cache, GeneratedProduct(e, first), b.w.s.ids.product)
    requires SkuInUse(b.w.s.t, GeneratedSku(e, second))
    requires Ref(e, third) == e.lower(BaseName(first)) && Ref(e, third) !in b.w.cache
    requires !SkuInUse(b.w.s.t, GeneratedSku(e, third))
    ensures RunBatch(e, b, [n, m], "").result.failed == b.result.failed + 2
    ensures FreshRun(e, b, [n, m], "").result.failed == b.result.failed + 1
  {
    RefusedTurn(e, b, n, first, second);
    var mid := ProcessOrder(e, b, n, "");
    RunOfTwo(e, b, [n, m], "");
    VanishedTurn(e, mid, m);
    FreshOfTwo(e, b, n, m);
    assert FreshTurn(e, b, n, "") == mid by {
      assert b.(w := Work(b.w.s, Lookup(e, b.w.s))) == b;
    }
    GeneratingTurn(e, mid.(w := Work(mid.w.s, b.w.cache)), m, third);
  }

  // ---------------------------------------------------------------- a product named by its new id

  /** What a turn over an order with one unknown item leaves, whatever the cache. */
  lemma GeneratingTurnIn(e: Env, b: Batch, n: Normalized, item: NormItem)
    requires Sound(b.w.s) && n.sourceOrderId != "" && n.email != "" && n.items == [item]
    requires Ref(e, item) !in b.w.cache && !SkuInUse(b.w.s.t, GeneratedSku(e, item))
    ensures var r := ProcessOrder(e, b, n, "");
            && r.result.failed == b.result.failed
            && r.w.cache == Remember(e, b.w.cache, GeneratedProduct(e, item), b.w.s.ids.product)
            && r.w.s.t.products == b.w.s.t.products[b.w.s.ids.product := GeneratedProduct(e, item)]
            && r.w.s.ids.product == b.w.s.ids.product + 1
  {
    GeneratingOrder(e, b.w, n, item);
  }

  lemma KnownFreshTurn(e: Env, b: Batch, m: Normalized, item: NormItem)
    requires Sound(b.w.s) && m.sourceOrderId != "" && m.email != "" && m.items == [item]
    requires Ref(e, item) in Lookup(e, b.w.s)
    ensures FreshTurn(e, b, m, "").w.s.t.products == b.w.s.t.products
  {
    var reread := b.(w := Work(b.w.s, Lookup(e, b.w.s)));
    LookupLive(e, b.w.s.t.products, b.w.s.ids.product);
    OnlyItem(e, reread.w.cache, m, item);
    TurnKeepsCatalogue(e, reread, m, "");
  }

  lemma SkuStillFree(s: Store, t: Tables, p: Product, sku: string)
    requires t.products == s.t.products[s.ids.product := p] && p.sku != sku && !SkuInUse(s.t, sku)
    ensures !SkuInUse(t, sku)
  {
  }

  /** An item that the cache does not know and the lookup does: one turn generates, the other does not. */
  lemma TurnsPart(e: Env, mid: Batch, m: Normalized, item: NormItem)
    requires Sound(mid.w.s) && m.sourceOrderId != "" && m.email != "" && m.items == [item]
    requires Ref(e, item) !in mid.w.cache && Ref(e, item) in Lookup(e, mid.w.s)
    requires !SkuInUse(mid.w.s.t, GeneratedSku(e, item))
    ensures var r, f := ProcessOrder(e, mid, m, ""), FreshTurn(e, mid, m, "");
            && r.result.failed == mid.result.failed
            && mid.w.s.ids.product in r.w.s.t.products && mid.w.s.ids.product !in f.w.s.t.products
  {
    GeneratingTurnIn(e, mid, m, item);
    KnownFreshTurn(e, mid, m, item);
  }

  /** Without the condition on new ids the two part as well: an order that names, by its id, the product
      generated for the order before it gets another product generated, while a fresh lookup would have
      found the one it names. */
  lemma NewIdNotSeen(e: Env, b: Batch, n: Normalized, m: Normalized, first: NormItem, second: NormItem)
    requires Sound(b.w.s) && b.w.cache == Lookup(e, b.w.s)
    requires n.sourceOrderId != "" && n.email != "" && n.items == [first]
    requires m.sourceOrderId != "" && m.email != "" && m.items == [second]
    requires Ref(e, first) !in b.w.cache && !SkuInUse(b.w.s.t, GeneratedSku(e, first))
    requires Ref(e, second) == e.showId(b.w.s.ids.product)
    requires Ref(e, second) !in Remember(e, b.w.cache, GeneratedProduct(e, first), b.w.s.ids.product)
    requires !SkuInUse(b.w.s.t, GeneratedSku(e, second)) && GeneratedSku(e, second) != GeneratedSku(e, first)
    ensures var r, f := RunBatch(e, b, [n, m], ""), FreshRun(e, b, [n, m], "");
            && r.result.failed == b.result.failed
            && b.w.s.ids.product + 1 in r.w.s.t.products && b.w.s.ids.product + 1 !in f.w.s.t.products
  {
    var mid := ProcessOrder(e, b, n, "");
    FirstGenerated(e, b, mid, n, first, second);
    TurnsPart(e, mid, m, second);
    BothOfTwo(e, b, n, m);
  }

  lemma BothOfTwo(e: Env, b: Batch, n: Normalized, m: Normalized)
    requires Sound(b.w.s) && b.w.cache == Lookup(e, b.w.s)
    ensures RunBatch(e, b, [n, m], "") == ProcessOrder(e, ProcessOrder(e, b, n, ""), m, "")
    ensures FreshRun(e, b, [n, m], "") == FreshTurn(e, ProcessOrder(e, b, n, ""), m, "")
  {
    RunOfTwo(e, b, [n, m], "");
    FreshOfTwo(e, b, n, m);
    assert b.(w := Work(b.w.s, Lookup(e, b.w.s))) == b;
  }

  lemma FirstGenerated(e: Env, b: Batch, mid: Batch, n: Normalized, first: NormItem, second: NormItem)
    requires Sound(b.w.s) && b.w.cache == Lookup(e, b.w.s) && mid == ProcessOrder(e, b, n, "")
    requires n.sourceOrderId != "" && n.email != "" && n.items == [first]
    requires Ref(e, first) !in b.w.cache && !SkuInUse(b.w.s.t, GeneratedSku(e, first))
    requires Ref(e, second) == e.showId(b.w.s.ids.product)
    requires Ref(e, second) !in Remember(e, b.w.cache, GeneratedProduct(e, first), b.w.s.ids.product)
    requires !SkuInUse(b.w.s.t, GeneratedSku(e, second)) && GeneratedSku(e, second) != GeneratedSku(e, first)
    ensures mid.result.failed == b.result.failed && mid.w.s.ids.product == b.w.s.ids.product + 1
    ensures Ref(e, second) !in mid.w.cache && Ref(e, second) in Lookup(e, mid.w.s)
    ensures !SkuInUse(mid.w.s.t, GeneratedSku(e, second))
  {
    GeneratingTurnIn(e, b, n, first);
    GeneratingTurn(e, b, n, first);
    SkuStillFree(b.w.s, mid.w.s.t, GeneratedProduct(e, first), GeneratedSku(e, second));
  }
}
