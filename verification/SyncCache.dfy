/** The product cache against the table it was read from: under which conditions the engine,
    which reads the table once, does what an engine would do that reads it before every order. */
module SyncCache {
  import opened Database
  import opened Normalization
  import opened OrderSync
  import opened ProductLookup
  import opened SyncConvergence

  // ---------------------------------------------------------------- the reference

  /** One turn with the product lookup read afresh. */
  ghost function FreshTurn(e: Env, b: Batch, n: Normalized, correlationId: string): (r: Batch)
    requires Sound(b.w.s)
    ensures Sound(r.w.s)
  {
    ProcessOrder(e, b.(w := Work(b.w.s, Lookup(e, b.w.s))), n, correlationId)
  }

  /** The left fold of independent orders: nothing is carried from one to the next but the store
      and the counters. */
  ghost function FreshRun(e: Env, b: Batch, ns: seq<Normalized>, correlationId: string): (r: Batch)
    requires Sound(b.w.s)
    ensures Sound(r.w.s)
    decreases |ns|
  {
    if ns == [] then b
    else FreshTurn(e, FreshRun(e, b, ns[..|ns| - 1], correlationId), ns[|ns| - 1], correlationId)
  }

  // ---------------------------------------------------------------- agreement of two caches

  /** The two caches give the same answer for every key outside `x`. */
  ghost predicate AgreeOff(a: map<string, nat>, b: map<string, nat>, x: set<string>) {
    forall k :: k !in x ==> SameAnswer(a, b, k)
  }

  predicate SameAnswer(a: map<string, nat>, b: map<string, nat>, k: string) {
    (k in a <==> k in b) && (k in a ==> a[k] == b[k])
  }

  /** The id strings of the products with a key from `lo` up to `hi`. */
  function IdStrings(e: Env, lo: nat, hi: nat): set<string> {
    set id: nat | lo <= id < hi :: e.showId(id)
  }

  ghost predicate Avoids(e: Env, items: seq<NormItem>, x: set<string>) {
    forall k :: 0 <= k < |items| ==> Ref(e, items[k]) !in x
  }

  lemma RememberAgrees(e: Env, a: map<string, nat>, b: map<string, nat>, x: set<string>, p: Product, id: nat)
    requires AgreeOff(a, b, x)
    ensures AgreeOff(Remember(e, a, p, id), Remember(e, b, p, id), x)
  {
    forall k | k !in x
      ensures SameAnswer(Remember(e, a, p, id), Remember(e, b, p, id), k)
    {
      assert SameAnswer(a, b, k);
    }
  }

  /** Two outcomes that differ at most in the cache, outside `x`. */
  ghost predicate SameOutcome(a: Step, b: Step, x: set<string>) {
    && a.w.s == b.w.s && AgreeOff(a.w.cache, b.w.cache, x)
    && (a.Done? <==> b.Done?) && (a.Done? ==> a.id == b.id) && (a.Raised? ==> a.err == b.err)
  }

  lemma ProductAgrees(e: Env, s: Store, a: map<string, nat>, b: map<string, nat>, x: set<string>, item: NormItem)
    requires Sound(s) && AgreeOff(a, b, x) && Ref(e, item) !in x
    ensures SameOutcome(ResolveProduct(e, Work(s, a), item), ResolveProduct(e, Work(s, b), item), x)
  {
    assert SameAnswer(a, b, Ref(e, item));
    RememberAgrees(e, a, b, x, GeneratedProduct(e, item), s.ids.product);
  }

  lemma ItemAgrees(e: Env, s: Store, a: map<string, nat>, b: map<string, nat>, x: set<string>, order: nat,
                   item: NormItem)
    requires Sound(s) && order in s.t.orders && AgreeOff(a, b, x) && Ref(e, item) !in x
    ensures SameOutcome(AddItem(e, Work(s, a), order, item), AddItem(e, Work(s, b), order, item), x)
  {
    ProductAgrees(e, s, a, b, x, item);
    var pa, pb := ResolveProduct(e, Work(s, a), item), ResolveProduct(e, Work(s, b), item);
    assert pa.Done? ==> pa.id == pb.id && pa.w.s == pb.w.s;
  }

  lemma {:induction false} ItemsAgree(e: Env, s: Store, a: map<string, nat>, b: map<string, nat>, x: set<string>,
                                      order: nat, items: seq<NormItem>)
    requires Sound(s) && order in s.t.orders && AgreeOff(a, b, x) && Avoids(e, items, x)
    ensures SameOutcome(AddItems(e, Work(s, a), order, items), AddItems(e, Work(s, b), order, items), x)
    decreases |items|
  {
    if items == [] {
    } else {
      ItemAgrees(e, s, a, b, x, order, items[0]);
      var ra, rb := AddItem(e, Work(s, a), order, items[0]), AddItem(e, Work(s, b), order, items[0]);
      if ra.Done? {
        AvoidsTail(e, items, x);
        ItemsAgree(e, ra.w.s, ra.w.cache, rb.w.cache, x, order, items[1..]);
      }
    }
  }

  lemma AvoidsTail(e: Env, items: seq<NormItem>, x: set<string>)
    requires items != [] && Avoids(e, items, x)
    ensures Avoids(e, items[1..], x)
  {
    assert forall k :: 0 <= k < |items[1..]| ==> items[1..][k] == items[k + 1];
  }

  /** An order whose items avoid `x` goes the same way under two caches that agree off `x`. */
  lemma OrderAgrees(e: Env, s: Store, a: map<string, nat>, b: map<string, nat>, x: set<string>, n: Normalized,
                    correlationId: string)
    requires Sound(s) && AgreeOff(a, b, x) && Avoids(e, n.items, x)
    ensures var ra, rb := UpsertOne(e, Work(s, a), n, correlationId), UpsertOne(e, Work(s, b), n, correlationId);
            && ra.w.s == rb.w.s && (ra.Applied? <==> rb.Applied?)
            && (ra.Applied? ==> ra.action == rb.action && ra.order == rb.order)
            && (ra.Aborted? ==> ra.err == rb.err)
  {
    var c := ResolveCustomer(e, s, n);
    if c.Written? {
      var o := UpsertOrder(e, c.s, c.id, n, correlationId);
      DeleteLinesEffect(o.s, o.order, o.order);
      ItemsAgree(e, DeleteLines(o.s, o.order), a, b, x, o.order, n.items);
    }
  }

  lemma TurnAgrees(e: Env, b: Batch, x: set<string>, n: Normalized, correlationId: string)
    requires Sound(b.w.s) && AgreeOff(b.w.cache, Lookup(e, b.w.s), x) && Avoids(e, n.items, x)
    ensures var r, f := ProcessOrder(e, b, n, correlationId), FreshTurn(e, b, n, correlationId);
            r.w.s == f.w.s && r.result == f.result
  {
    if n.sourceOrderId != "" {
      OrderAgrees(e, b.w.s, b.w.cache, Lookup(e, b.w.s), x, n, correlationId);
      var reread := b.(w := Work(b.w.s, Lookup(e, b.w.s)));
      SettleAgrees(e, b, reread, n, UpsertOne(e, b.w, n, correlationId), UpsertOne(e, reread.w, n, correlationId),
                   correlationId);
    }
  }

  lemma SettleAgrees(e: Env, b: Batch, f: Batch, n: Normalized, ra: Upsert, rb: Upsert, correlationId: string)
    requires b.w.s == f.w.s && b.result == f.result && ra.w.s == rb.w.s && (ra.Applied? <==> rb.Applied?)
    requires ra.Applied? ==> ra.action == rb.action && ra.order == rb.order && ra.order in ra.w.s.t.orders
    ensures var r, g := Settle(e, b, n, ra, correlationId), Settle(e, f, n, rb, correlationId);
            r.w.s == g.w.s && r.result == g.result
  {
  }

  // ---------------------------------------------------------------- the cache follows the table

  /** The cache answers like the table, except for the id strings of products from `lo` on. */
  ghost predicate Follows(e: Env, w: Work, lo: nat) {
    AgreeOff(w.cache, Lookup(e, w.s), IdStrings(e, lo, w.s.ids.product))
  }

  lemma ItemFollows(e: Env, w: Work, lo: nat, order: nat, item: NormItem)
    requires Sound(w.s) && order in w.s.t.orders && lo <= w.s.ids.product && Follows(e, w, lo)
    requires AddItem(e, w, order, item).Done?
    ensures Follows(e, AddItem(e, w, order, item).w, lo)
  {
    if Ref(e, item) !in w.cache {
      LookupAfterInsert(e, w.s, GeneratedProduct(e, item));
      RememberFollows(e, w.cache, Lookup(e, w.s), lo, w.s.ids.product, GeneratedProduct(e, item));
    }
  }

  /** A remembered product differs from a looked-up one in its id string only. */
  lemma RememberFollows(e: Env, a: map<string, nat>, b: map<string, nat>, lo: nat, id: nat, p: Product)
    requires lo <= id && AgreeOff(a, b, IdStrings(e, lo, id))
    ensures AgreeOff(Remember(e, a, p, id), AddKeys(e, b, p, id), IdStrings(e, lo, id + 1))
  {
    forall k | k !in IdStrings(e, lo, id + 1)
      ensures SameAnswer(Remember(e, a, p, id), AddKeys(e, b, p, id), k)
    {
      assert e.showId(id) in IdStrings(e, lo, id + 1);
      assert k !in IdStrings(e, lo, id);
      assert SameAnswer(a, b, k);
    }
  }

  lemma {:induction false} ItemsFollow(e: Env, w: Work, lo: nat, order: nat, items: seq<NormItem>)
    requires Sound(w.s) && order in w.s.t.orders && lo <= w.s.ids.product && Follows(e, w, lo)
    requires AddItems(e, w, order, items).Done?
    ensures Follows(e, AddItems(e, w, order, items).w, lo)
    decreases |items|
  {
    if items == [] {
    } else {
      ItemFollows(e, w, lo, order, items[0]);
      ItemsFollow(e, AddItem(e, w, order, items[0]).w, lo, order, items[1..]);
    }
  }

  lemma OrderFollows(e: Env, w: Work, lo: nat, n: Normalized, correlationId: string)
    requires Sound(w.s) && lo <= w.s.ids.product && Follows(e, w, lo)
    requires UpsertOne(e, w, n, correlationId).Applied?
    ensures Follows(e, UpsertOne(e, w, n, correlationId).w, lo)
  {
    var c := ResolveCustomer(e, w.s, n);
    var o := UpsertOrder(e, c.s, c.id, n, correlationId);
    DeleteLinesEffect(o.s, o.order, o.order);
    ItemsFollow(e, Work(DeleteLines(o.s, o.order), w.cache), lo, o.order, n.items);
  }

  /** A turn that fails must not have remembered a product. */
  ghost predicate CleanTurn(e: Env, b: Batch, n: Normalized, correlationId: string)
    requires Sound(b.w.s)
  {
    var r := ProcessOrder(e, b, n, correlationId);
    r.result.failed != b.result.failed ==> r.w.cache == b.w.cache
  }

  lemma TurnFollows(e: Env, b: Batch, lo: nat, n: Normalized, correlationId: string)
    requires Sound(b.w.s) && lo <= b.w.s.ids.product && Follows(e, b.w, lo)
    requires CleanTurn(e, b, n, correlationId)
    ensures Follows(e, ProcessOrder(e, b, n, correlationId).w, lo)
  {
    var u := UpsertOne(e, b.w, n, correlationId);
    var r := ProcessOrder(e, b, n, correlationId);
    if n.sourceOrderId != "" && u.Applied? {
      OrderFollows(e, b.w, lo, n, correlationId);
    } else {
      LookupStable(e, b.w.s.t.products, b.w.s.ids.product, r.w.s.t.products, r.w.s.ids.product);
      IdStringsGrow(e, lo, b.w.s.ids.product, r.w.s.ids.product, r.w.cache, Lookup(e, r.w.s));
    }
  }

  lemma IdStringsGrow(e: Env, lo: nat, hi: nat, hi': nat, a: map<string, nat>, b: map<string, nat>)
    requires hi <= hi' && AgreeOff(a, b, IdStrings(e, lo, hi))
    ensures AgreeOff(a, b, IdStrings(e, lo, hi'))
  {
    forall k | k !in IdStrings(e, lo, hi')
      ensures SameAnswer(a, b, k)
    {
      assert k !in IdStrings(e, lo, hi);
    }
  }

  // ---------------------------------------------------------------- whole runs

  /** No order that was rolled back had remembered a product. */
  ghost predicate CleanRun(e: Env, b: Batch, ns: seq<Normalized>, correlationId: string)
    requires Sound(b.w.s)
    decreases |ns|
  {
    ns == [] ||
    (CleanRun(e, b, ns[..|ns| - 1], correlationId)
     && CleanTurn(e, RunBatch(e, b, ns[..|ns| - 1], correlationId), ns[|ns| - 1], correlationId))
  }

  /** No item is referred to by the id of a product that this run creates. */
  ghost predicate NoForesight(e: Env, b: Batch, ns: seq<Normalized>, correlationId: string)
    requires Sound(b.w.s)
  {
    var created := IdStrings(e, b.w.s.ids.product, RunBatch(e, b, ns, correlationId).w.s.ids.product);
    forall i :: 0 <= i < |ns| ==> Avoids(e, ns[i].items, created)
  }

  lemma NoForesightPrefix(e: Env, b: Batch, ns: seq<Normalized>, correlationId: string)
    requires ns != [] && Sound(b.w.s) && NoForesight(e, b, ns, correlationId)
    ensures NoForesight(e, b, ns[..|ns| - 1], correlationId)
    ensures Avoids(e, ns[|ns| - 1].items,
              IdStrings(e, b.w.s.ids.product, RunBatch(e, b, ns[..|ns| - 1], correlationId).w.s.ids.product))
  {
    var lo := b.w.s.ids.product;
    var mid := RunBatch(e, b, ns[..|ns| - 1], correlationId).w.s.ids.product;
    var hi := RunBatch(e, b, ns, correlationId).w.s.ids.product;
    assert IdStrings(e, lo, mid) <= IdStrings(e, lo, hi);
    forall i | 0 <= i < |ns|
      ensures Avoids(e, ns[i].items, IdStrings(e, lo, mid))
    {
      assert Avoids(e, ns[i].items, IdStrings(e, lo, hi));
    }
    assert forall i :: 0 <= i < |ns| - 1 ==> ns[..|ns| - 1][i] == ns[i];
  }

  /** The cache against the table. At the end of a run in which no rolled-back order had created a
      product, the cache answers like a fresh lookup for every key but the id strings of the products
      created in the run. */
  lemma {:induction false} CacheFollowsTable(e: Env, b: Batch, ns: seq<Normalized>, correlationId: string)
    requires Sound(b.w.s) && b.w.cache == Lookup(e, b.w.s) && CleanRun(e, b, ns, correlationId)
    ensures Follows(e, RunBatch(e, b, ns, correlationId).w, b.w.s.ids.product)
    decreases |ns|
  {
    if ns == [] {
    } else {
      CacheFollowsTable(e, b, ns[..|ns| - 1], correlationId);
      TurnFollows(e, RunBatch(e, b, ns[..|ns| - 1], correlationId), b.w.s.ids.product, ns[|ns| - 1], correlationId);
    }
  }

  /** Refinement. If, in addition, no item is referred to by the id of a product created in the run, the
      run does exactly what the fold of independent orders does: same store, same counters, same
      result list. */
  lemma {:induction false} CachedRunIsFresh(e: Env, b: Batch, ns: seq<Normalized>, correlationId: string)
    requires Sound(b.w.s) && b.w.cache == Lookup(e, b.w.s)
    requires CleanRun(e, b, ns, correlationId) && NoForesight(e, b, ns, correlationId)
    ensures var r, f := RunBatch(e, b, ns, correlationId), FreshRun(e, b, ns, correlationId);
            r.w.s == f.w.s && r.result == f.result
    decreases |ns|
  {
    if ns == [] {
    } else {
      var mid := RunBatch(e, b, ns[..|ns| - 1], correlationId);
      NoForesightPrefix(e, b, ns, correlationId);
      CachedRunIsFresh(e, b, ns[..|ns| - 1], correlationId);
      CacheFollowsTable(e, b, ns[..|ns| - 1], correlationId);
      TurnAgrees(e, mid, IdStrings(e, b.w.s.ids.product, mid.w.s.ids.product), ns[|ns| - 1], correlationId);
    }
  }

  // ---------------------------------------------------------------- vanished products, exactly

  /** Generating a product puts its new key into the cache, and it stays the newest under some text. */
  ghost predicate NamesNew(cache: map<string, nat>, lo: nat) {
    exists k :: k in cache && cache[k] >= lo
  }

  lemma ItemRemembers(e: Env, w: Work, order: nat, item: NormItem)
    requires Sound(w.s) && order in w.s.t.orders && Live(w.cache, w.s.t.products)
    ensures var r := AddItem(e, w, order, item);
            && Live(r.w.cache, r.w.s.t.products)
            && (r.w.cache == w.cache || NamesNew(r.w.cache, w.s.ids.product))
  {
    var r := ResolveProduct(e, w, item);
    if Ref(e, item) !in w.cache && r.Done? {
      var p := GeneratedProduct(e, item);
      assert r.w.cache == Remember(e, w.cache, p, r.id) && e.lower(p.name) in r.w.cache;
      assert r.w.cache[e.lower(p.name)] == w.s.ids.product;
    }
  }

  lemma {:induction false} ItemsRemember(e: Env, w: Work, order: nat, items: seq<NormItem>)
    requires Sound(w.s) && order in w.s.t.orders && Live(w.cache, w.s.t.products)
    ensures var r := AddItems(e, w, order, items);
            && Live(r.w.cache, r.w.s.t.products)
            && (r.w.cache == w.cache || NamesNew(r.w.cache, w.s.ids.product))
    decreases |items|
  {
    if items != [] {
      ItemRemembers(e, w, order, items[0]);
      var first := AddItem(e, w, order, items[0]);
      if first.Done? {
        ItemsRemember(e, first.w, order, items[1..]);
        var r := AddItems(e, first.w, order, items[1..]);
        if r.w.cache != first.w.cache {
          var k :| k in r.w.cache && r.w.cache[k] >= first.w.s.ids.product;
          assert r.w.cache[k] >= w.s.ids.product;
        }
      }
    }
  }

  lemma OrderRemembers(e: Env, w: Work, n: Normalized, correlationId: string)
    requires Sound(w.s) && Live(w.cache, w.s.t.products)
    ensures var u := UpsertOne(e, w, n, correlationId);
            && Live(u.w.cache, u.w.s.t.products)
            && (u.w.cache == w.cache || NamesNew(u.w.cache, w.s.ids.product))
  {
    var c := ResolveCustomer(e, w.s, n);
    if c.Written? {
      var o := UpsertOrder(e, c.s, c.id, n, correlationId);
      DeleteLinesEffect(o.s, o.order, o.order);
      var start := Work(DeleteLines(o.s, o.order), w.cache);
      assert start.s.t.products == w.s.t.products && start.s.ids.product == w.s.ids.product;
      ItemsRemember(e, start, o.order, n.items);
    }
  }

  /** A key given out after the savepoint names no row of the tables it restores. */
  lemma NewIsNotLive(s: Store, cache: map<string, nat>)
    requires Sound(s) && NamesNew(cache, s.ids.product)
    ensures !Live(cache, s.t.products)
  {
  }

  /** After a turn the cache names live products exactly when the turn was clean. */
  lemma TurnLive(e: Env, b: Batch, n: Normalized, correlationId: string)
    requires Sound(b.w.s) && Live(b.w.cache, b.w.s.t.products)
    ensures var r := ProcessOrder(e, b, n, correlationId);
            Live(r.w.cache, r.w.s.t.products) <==> CleanTurn(e, b, n, correlationId)
  {
    if n.sourceOrderId != "" {
      OrderRemembers(e, b.w, n, correlationId);
      SettledLive(e, b, n, UpsertOne(e, b.w, n, correlationId), correlationId);
    }
  }

  lemma SettledLive(e: Env, b: Batch, n: Normalized, u: Upsert, correlationId: string)
    requires Sound(b.w.s) && Live(b.w.cache, b.w.s.t.products)
    requires Live(u.w.cache, u.w.s.t.products) && (u.w.cache == b.w.cache || NamesNew(u.w.cache, b.w.s.ids.product))
    requires u.Applied? ==> u.order in u.w.s.t.orders
    ensures var r := Settle(e, b, n, u, correlationId);
            && r.w.cache == u.w.cache && (r.result.failed != b.result.failed <==> u.Aborted?)
            && (Live(r.w.cache, r.w.s.t.products) <==> u.Applied? || u.w.cache == b.w.cache)
  {
    if u.Aborted? && u.w.cache != b.w.cache {
      NewIsNotLive(b.w.s, u.w.cache);
    }
  }

  /** After each of the first `|ns|` orders the cache names live products only. */
  ghost predicate AlwaysLive(e: Env, b: Batch, ns: seq<Normalized>, correlationId: string)
    requires Sound(b.w.s)
  {
    forall j :: 0 <= j <= |ns| ==> LiveAfter(e, b, ns[..j], correlationId)
  }

  ghost predicate LiveAfter(e: Env, b: Batch, done: seq<Normalized>, correlationId: string)
    requires Sound(b.w.s)
  {
    var w := RunBatch(e, b, done, correlationId).w;
    Live(w.cache, w.s.t.products)
  }

  lemma AlwaysLivePrefix(e: Env, b: Batch, ns: seq<Normalized>, correlationId: string)
    requires ns != [] && Sound(b.w.s)
    ensures AlwaysLive(e, b, ns, correlationId)
       <==> AlwaysLive(e, b, ns[..|ns| - 1], correlationId) && LiveAfter(e, b, ns, correlationId)
  {
    var before := ns[..|ns| - 1];
    assert ns[..|ns|] == ns;
    forall j | 0 <= j <= |before|
      ensures LiveAfter(e, b, before[..j], correlationId) <==> LiveAfter(e, b, ns[..j], correlationId)
    {
      assert before[..j] == ns[..j];
    }
    if AlwaysLive(e, b, before, correlationId) && LiveAfter(e, b, ns, correlationId) {
      forall j | 0 <= j <= |ns|
        ensures LiveAfter(e, b, ns[..j], correlationId)
      {
        if j < |ns| { assert LiveAfter(e, b, before[..j], correlationId); }
      }
    }
  }

  /** The cache never names a vanished product between two orders, nor at the end, if and only if no order
      that was rolled back had generated one. */
  lemma {:induction false} LiveExact(e: Env, b: Batch, ns: seq<Normalized>, correlationId: string)
    requires Sound(b.w.s) && Live(b.w.cache, b.w.s.t.products)
    ensures AlwaysLive(e, b, ns, correlationId) <==> CleanRun(e, b, ns, correlationId)
    decreases |ns|
  {
    if ns == [] {
      assert ns[..0] == ns;
    } else {
      var before := ns[..|ns| - 1];
      LiveExact(e, b, before, correlationId);
      AlwaysLivePrefix(e, b, ns, correlationId);
      assert before[..|before|] == before;
      if AlwaysLive(e, b, before, correlationId) {
        assert LiveAfter(e, b, before, correlationId);
        TurnLive(e, RunBatch(e, b, before, correlationId), ns[|ns| - 1], correlationId);
      }
    }
  }

  // ---------------------------------------------------------------- known beforehand

  /** A condition to check beforehand: when every item is in the initial lookup, both conditions
      hold, whatever else happens to the orders. */
  lemma {:induction false} KnownRunIsClean(e: Env, b: Batch, ns: seq<Normalized>, correlationId: string)
    requires Sound(b.w.s) && Live(b.w.cache, b.w.s.t.products)
    requires forall i :: 0 <= i < |ns| ==> Known(e, b.w.cache, ns[i].items)
    ensures CleanRun(e, b, ns, correlationId) && NoForesight(e, b, ns, correlationId)
    ensures var r := RunBatch(e, b, ns, correlationId);
            && r.w.cache == b.w.cache && r.w.s.t.products == b.w.s.t.products
            && r.w.s.ids.product == b.w.s.ids.product
    decreases |ns|
  {
    if ns == [] {
    } else {
      assert forall i :: 0 <= i < |ns| - 1 ==> ns[..|ns| - 1][i] == ns[i];
      KnownRunIsClean(e, b, ns[..|ns| - 1], correlationId);
      KnownTurn(e, RunBatch(e, b, ns[..|ns| - 1], correlationId), ns[|ns| - 1], correlationId);
    }
  }

  lemma KnownUpsert(e: Env, w: Work, n: Normalized, correlationId: string)
    requires Sound(w.s) && Live(w.cache, w.s.t.products) && Known(e, w.cache, n.items)
    ensures var u := UpsertOne(e, w, n, correlationId);
            && u.w.cache == w.cache && u.w.s.ids.product == w.s.ids.product
            && (u.Applied? ==> u.w.s.t.products == w.s.t.products)
  {
    var c := ResolveCustomer(e, w.s, n);
    if c.Written? {
      var o := UpsertOrder(e, c.s, c.id, n, correlationId);
      DeleteLinesEffect(o.s, o.order, o.order);
      KnownItems(e, Work(DeleteLines(o.s, o.order), w.cache), o.order, n.items);
    }
  }

  lemma KnownTurn(e: Env, b: Batch, n: Normalized, correlationId: string)
    requires Sound(b.w.s) && Live(b.w.cache, b.w.s.t.products) && Known(e, b.w.cache, n.items)
    ensures var r := ProcessOrder(e, b, n, correlationId);
            && r.w.cache == b.w.cache && r.w.s.t.products == b.w.s.t.products
            && r.w.s.ids.product == b.w.s.ids.product
  {
    KnownUpsert(e, b.w, n, correlationId);
  }
}
