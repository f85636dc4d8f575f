/** The last order with a given reference decides what is stored under it, and therefore a
    repeated batch leaves the tables as it found them. */
module SyncRepeat {
  import opened Wrappers
  import opened Database
  import opened Normalization
  import opened OrderSync
  import opened ProductLookup
  import opened SyncEffects
  import opened SyncConvergence

  /** Every order can be applied against this cache: it has an id, an e-mail and known items. */
  ghost predicate Applicable(e: Env, cache: map<string, nat>, ns: seq<Normalized>) {
    forall i :: 0 <= i < |ns| ==> ns[i].sourceOrderId != "" && Repeatable(e, cache, ns[i])
  }

  predicate SameRow(a: Order, b: Order) {
    a.(lastSynced := None, correlationId := "") == b.(lastSynced := None, correlationId := "")
  }

  /** The row of order `o` is exactly what `n` describes, up to the stamps of the run. */
  ghost predicate RowAt(e: Env, t: Tables, n: Normalized, o: nat) {
    && o in t.orders && EmailInUse(t, n.email)
    && SameRow(t.orders[o], OrderRow(e, n, FindCustomer(t, n.email).value, "", t.orders[o].createdAt))
  }

  ghost predicate HasRow(e: Env, t: Tables, n: Normalized) {
    exists o :: RowAt(e, t, n, o)
  }

  /** Order `o` is stored exactly as `n` describes it, its lines as the cache resolves them. */
  ghost predicate StoredAt(e: Env, w: Work, n: Normalized, o: nat) {
    RowAt(e, w.s.t, n, o) && Lines(w.s, o) == ResolvedLines(e, w.cache, n.items)
  }

  ghost predicate Stored(e: Env, w: Work, n: Normalized) {
    exists o :: StoredAt(e, w, n, o)
  }

  predicate LastOf(ns: seq<Normalized>, i: nat)
    requires i < |ns|
  {
    forall j :: i < j < |ns| ==> ns[j].sourceOrderId != ns[i].sourceOrderId
  }

  predicate Mentions(ns: seq<Normalized>, ref: string) {
    exists i :: 0 <= i < |ns| && ns[i].sourceOrderId == ref
  }

  lemma FindCustomerIs(t: Tables, c: nat)
    requires UniqueEmails(t.customers) && c in t.customers
    ensures FindCustomer(t, t.customers[c].email) == Some(c)
  {
  }

  lemma AppliedRow(e: Env, w: Work, n: Normalized, correlationId: string)
    requires Sound(w.s) && n.email != "" && UpsertOne(e, w, n, correlationId).Applied?
    ensures var u := UpsertOne(e, w, n, correlationId); RowAt(e, u.w.s.t, n, u.order)
  {
    AppliedEffect(e, w, n, correlationId);
    var u := UpsertOne(e, w, n, correlationId);
    FindCustomerIs(u.w.s.t, u.w.s.t.orders[u.order].customer);
  }

  lemma AppliedStores(e: Env, w: Work, n: Normalized, correlationId: string)
    requires Sound(w.s) && Live(w.cache, w.s.t.products) && Repeatable(e, w.cache, n)
    ensures var u := UpsertOne(e, w, n, correlationId);
            u.Applied? && u.w.cache == w.cache && StoredAt(e, u.w, n, u.order)
  {
    KnownOrder(e, w, n, correlationId);
    AppliedRow(e, w, n, correlationId);
  }

  /** A successful turn over a known order stores that order. */
  lemma TurnStores(e: Env, b: Batch, n: Normalized, correlationId: string)
    requires Sound(b.w.s) && Live(b.w.cache, b.w.s.t.products)
    requires n.sourceOrderId != "" && Repeatable(e, b.w.cache, n)
    ensures Stored(e, ProcessOrder(e, b, n, correlationId).w, n)
  {
    AppliedStores(e, b.w, n, correlationId);
    var u := UpsertOne(e, b.w, n, correlationId);
    var r := ProcessOrder(e, b, n, correlationId);
    StoredIgnoresAudits(e, u.w, r.w, n, u.order);
  }

  lemma StoredIgnoresAudits(e: Env, a: Work, b: Work, n: Normalized, o: nat)
    requires b.s.ids == a.s.ids && b.s.t == a.s.t.(syncAudits := b.s.t.syncAudits) && b.cache == a.cache
    requires StoredAt(e, a, n, o) && UniqueEmails(a.s.t.customers)
    ensures StoredAt(e, b, n, o)
  {
    RowIgnoresAudits(e, a.s.t, b.s.t, n, o);
  }

  lemma RowIgnoresAudits(e: Env, a: Tables, b: Tables, n: Normalized, o: nat)
    requires b == a.(syncAudits := b.syncAudits) && RowAt(e, a, n, o) && UniqueEmails(a.customers)
    ensures RowAt(e, b, n, o)
  {
    FindCustomerIs(a, FindCustomer(a, n.email).value);
    FindCustomerIs(b, FindCustomer(a, n.email).value);
  }

  /** A turn over a known order keeps the catalogue, and the customers too when its e-mail is in use. */
  lemma TurnKeepsCatalogue(e: Env, b: Batch, n: Normalized, correlationId: string)
    requires Sound(b.w.s) && Live(b.w.cache, b.w.s.t.products)
    requires n.sourceOrderId != "" && Repeatable(e, b.w.cache, n)
    ensures var r := ProcessOrder(e, b, n, correlationId);
            && r.w.cache == b.w.cache && r.w.s.t.products == b.w.s.t.products
            && r.w.s.ids.product == b.w.s.ids.product
            && (EmailInUse(b.w.s.t, n.email) ==> r.w.s.t.customers == b.w.s.t.customers)
            && r.result.failed == b.result.failed
  {
    KnownOrder(e, b.w, n, correlationId);
  }

  lemma AppliedSpares(e: Env, w: Work, n: Normalized, correlationId: string, o: nat)
    requires Sound(w.s) && o in w.s.t.orders && UpsertOne(e, w, n, correlationId).Applied?
    requires !HasRef(w.s.t.orders[o], e.source, n.sourceOrderId)
    ensures var u := UpsertOne(e, w, n, correlationId);
            o in u.w.s.t.orders && u.w.s.t.orders[o] == w.s.t.orders[o] && Lines(u.w.s, o) == Lines(w.s, o)
  {
    AppliedFrame(e, w, n, correlationId, o);
  }

  /** A turn leaves an order with another reference exactly as it was. */
  lemma TurnSpares(e: Env, b: Batch, n: Normalized, correlationId: string, o: nat)
    requires Sound(b.w.s) && o in b.w.s.t.orders
    requires !HasRef(b.w.s.t.orders[o], e.source, n.sourceOrderId)
    ensures var r := ProcessOrder(e, b, n, correlationId);
            o in r.w.s.t.orders && r.w.s.t.orders[o] == b.w.s.t.orders[o] && Lines(r.w.s, o) == Lines(b.w.s, o)
  {
    var u := UpsertOne(e, b.w, n, correlationId);
    if n.sourceOrderId == "" {
    } else if u.Applied? {
      AppliedSpares(e, b.w, n, correlationId, o);
    } else {
      LinesIgnoreIds(b.w.s.t.items, o, b.w.s.ids.item, u.w.s.ids.item);
    }
  }

  lemma {:induction false} LinesIgnoreIds(items: map<nat, Item>, o: nat, lo: nat, hi: nat)
    requires lo <= hi && forall i :: i in items ==> i < lo
    ensures LinesBelow(items, o, lo) == LinesBelow(items, o, hi)
    decreases hi
  {
    if lo < hi {
      LinesIgnoreIds(items, o, lo, hi - 1);
    }
  }

  lemma RowSurvives(e: Env, b: Batch, m: Normalized, n: Normalized, correlationId: string, o: nat)
    requires Sound(b.w.s) && RowAt(e, b.w.s.t, m, o) && m.sourceOrderId != n.sourceOrderId
    ensures RowAt(e, ProcessOrder(e, b, n, correlationId).w.s.t, m, o)
  {
    var r := ProcessOrder(e, b, n, correlationId);
    TurnSpares(e, b, n, correlationId, o);
    TurnOnlyAdds(e, b, n, correlationId);
    var c := FindCustomer(b.w.s.t, m.email).value;
    assert c in r.w.s.t.customers;
    assert FindCustomer(r.w.s.t, m.email) == Some(c);
  }

  /** What was stored for an order with another reference is still stored after the turn. */
  lemma StoredSurvives(e: Env, b: Batch, m: Normalized, n: Normalized, correlationId: string)
    requires Sound(b.w.s) && Stored(e, b.w, m) && m.sourceOrderId != n.sourceOrderId
    requires ProcessOrder(e, b, n, correlationId).w.cache == b.w.cache
    ensures Stored(e, ProcessOrder(e, b, n, correlationId).w, m)
  {
    var o :| StoredAt(e, b.w, m, o);
    TurnSpares(e, b, n, correlationId, o);
    RowSurvives(e, b, m, n, correlationId, o);
    assert StoredAt(e, ProcessOrder(e, b, n, correlationId).w, m, o);
  }

  ghost predicate LastOnesStored(e: Env, w: Work, ns: seq<Normalized>) {
    forall i :: 0 <= i < |ns| && LastOf(ns, i) ==> Stored(e, w, ns[i])
  }

  lemma LastOfPrefix(ns: seq<Normalized>, i: nat)
    requires i < |ns| - 1 && LastOf(ns, i)
    ensures LastOf(ns[..|ns| - 1], i)
    ensures ns[i].sourceOrderId != ns[|ns| - 1].sourceOrderId
  {
    assert forall j :: i < j < |ns| - 1 ==> ns[..|ns| - 1][j] == ns[j];
  }

  lemma LastOnesStep(e: Env, mid: Batch, r: Batch, ns: seq<Normalized>, correlationId: string)
    requires ns != [] && Sound(mid.w.s) && LastOnesStored(e, mid.w, ns[..|ns| - 1])
    requires r == ProcessOrder(e, mid, ns[|ns| - 1], correlationId) && r.w.cache == mid.w.cache
    requires Stored(e, r.w, ns[|ns| - 1])
    ensures LastOnesStored(e, r.w, ns)
  {
    forall i | 0 <= i < |ns| && LastOf(ns, i)
      ensures Stored(e, r.w, ns[i])
    {
      if i < |ns| - 1 {
        LastOfPrefix(ns, i);
        assert ns[..|ns| - 1][i] == ns[i];
        StoredSurvives(e, mid, ns[i], ns[|ns| - 1], correlationId);
      }
    }
  }

  /** Over an applicable batch no order fails, the catalogue stays, and the last order with a
      reference decides what is stored under it. */
  lemma {:induction false} LastWriterWins(e: Env, b: Batch, ns: seq<Normalized>, correlationId: string)
    requires Sound(b.w.s) && Live(b.w.cache, b.w.s.t.products) && Applicable(e, b.w.cache, ns)
    ensures var r := RunBatch(e, b, ns, correlationId);
            && r.w.cache == b.w.cache && r.w.s.t.products == b.w.s.t.products
            && r.w.s.ids.product == b.w.s.ids.product
            && r.result.failed == b.result.failed
            && LastOnesStored(e, r.w, ns)
    decreases |ns|
  {
    if ns == [] {
    } else {
      var mid := RunBatch(e, b, ns[..|ns| - 1], correlationId);
      ApplicablePrefix(e, b.w.cache, ns);
      LastWriterWins(e, b, ns[..|ns| - 1], correlationId);
      TurnKeepsCatalogue(e, mid, ns[|ns| - 1], correlationId);
      TurnStores(e, mid, ns[|ns| - 1], correlationId);
      LastOnesStep(e, mid, RunBatch(e, b, ns, correlationId), ns, correlationId);
    }
  }

  lemma ApplicablePrefix(e: Env, cache: map<string, nat>, ns: seq<Normalized>)
    requires ns != [] && Applicable(e, cache, ns)
    ensures Applicable(e, cache, ns[..|ns| - 1])
    ensures ns[|ns| - 1].sourceOrderId != "" && Repeatable(e, cache, ns[|ns| - 1])
  {
    assert forall i :: 0 <= i < |ns| - 1 ==> ns[..|ns| - 1][i] == ns[i];
  }

  // ---------------------------------------------------------------- the same batch twice

  /** The two stores hold the same customers, products, shops, orders and order lines, up to the
      stamps of the run and the keys of the order items. */
  ghost predicate SameButStamps(a: Store, b: Store) {
    && a.t.customers == b.t.customers && a.t.products == b.t.products && a.t.shops == b.t.shops
    && a.t.orders.Keys == b.t.orders.Keys
    && forall o :: o in a.t.orders ==> SameRow(a.t.orders[o], b.t.orders[o]) && Lines(a, o) == Lines(b, o)
  }

  lemma {:induction false} LastMention(ns: seq<Normalized>, ref: string) returns (i: nat)
    requires Mentions(ns, ref)
    ensures i < |ns| && ns[i].sourceOrderId == ref && LastOf(ns, i)
  {
    if ns[|ns| - 1].sourceOrderId == ref {
      i := |ns| - 1;
    } else {
      var k :| 0 <= k < |ns| && ns[k].sourceOrderId == ref;
      assert ns[..|ns| - 1][k] == ns[k];
      i := LastMention(ns[..|ns| - 1], ref);
      assert forall j :: i < j < |ns| - 1 ==> ns[..|ns| - 1][j] == ns[j];
    }
  }

  /** An order that the batch does not mention is untouched by the run. */
  lemma {:induction false} RunSpares(e: Env, b: Batch, ns: seq<Normalized>, correlationId: string, o: nat)
    requires Sound(b.w.s) && o in b.w.s.t.orders
    requires forall i :: 0 <= i < |ns| ==> !HasRef(b.w.s.t.orders[o], e.source, ns[i].sourceOrderId)
    ensures var r := RunBatch(e, b, ns, correlationId);
            o in r.w.s.t.orders && r.w.s.t.orders[o] == b.w.s.t.orders[o] && Lines(r.w.s, o) == Lines(b.w.s, o)
  {
    if ns == [] {
    } else {
      assert forall i :: 0 <= i < |ns| - 1 ==> ns[..|ns| - 1][i] == ns[i];
      RunSpares(e, b, ns[..|ns| - 1], correlationId, o);
      TurnSpares(e, RunBatch(e, b, ns[..|ns| - 1], correlationId), ns[|ns| - 1], correlationId, o);
    }
  }

  ghost predicate AllInUse(e: Env, t: Tables, ns: seq<Normalized>) {
    forall i :: 0 <= i < |ns| ==> InUse(e, t, ns[i])
  }

  lemma AllInUsePrefix(e: Env, t: Tables, ns: seq<Normalized>)
    requires ns != [] && AllInUse(e, t, ns)
    ensures AllInUse(e, t, ns[..|ns| - 1]) && InUse(e, t, ns[|ns| - 1])
  {
    assert forall i :: 0 <= i < |ns| - 1 ==> ns[..|ns| - 1][i] == ns[i];
  }

  /** When every reference and every e-mail of the batch is in use already, the run adds no order
      and no customer, and every one of its orders is an update. */
  lemma {:induction false} NothingAdded(e: Env, b: Batch, ns: seq<Normalized>, correlationId: string)
    requires Sound(b.w.s) && Live(b.w.cache, b.w.s.t.products) && Applicable(e, b.w.cache, ns)
    requires AllInUse(e, b.w.s.t, ns)
    ensures OnlyUpdates(b, RunBatch(e, b, ns, correlationId), |ns|)
  {
    if ns == [] {
    } else {
      var mid := RunBatch(e, b, ns[..|ns| - 1], correlationId);
      AllInUsePrefix(e, b.w.s.t, ns);
      ApplicablePrefix(e, b.w.cache, ns);
      NothingAdded(e, b, ns[..|ns| - 1], correlationId);
      LastWriterWins(e, b, ns[..|ns| - 1], correlationId);
      RunOnlyAdds(e, b, ns[..|ns| - 1], correlationId);
      InUseStays(e, b.w.s.t, mid.w.s.t, ns[|ns| - 1]);
      TurnUpdates(e, mid, ns[|ns| - 1], correlationId);
    }
  }

  /** `count` orders were updated; no order and no customer was added. */
  ghost predicate OnlyUpdates(b: Batch, r: Batch, count: nat) {
    && r.w.s.t.customers == b.w.s.t.customers && r.w.s.t.orders.Keys == b.w.s.t.orders.Keys
    && r.result.created == b.result.created && r.result.updated == b.result.updated + count
  }

  /** The order's reference and e-mail are in use. */
  ghost predicate InUse(e: Env, t: Tables, n: Normalized) {
    RefInUse(t, e.source, n.sourceOrderId) && EmailInUse(t, n.email)
  }

  lemma InUseStays(e: Env, a: Tables, b: Tables, n: Normalized)
    requires InUse(e, a, n) && OnlyAdds(a, b)
    ensures InUse(e, b, n)
  {
    var o :| o in a.orders && HasRef(a.orders[o], e.source, n.sourceOrderId);
    assert SameIdentity(a.orders[o], b.orders[o]);
    var c :| c in a.customers && a.customers[c].email == n.email;
    assert c in b.customers;
  }

  lemma AppliedUpdates(e: Env, w: Work, n: Normalized, correlationId: string)
    requires Sound(w.s) && Live(w.cache, w.s.t.products) && InUse(e, w.s.t, n) && Repeatable(e, w.cache, n)
    ensures var u := UpsertOne(e, w, n, correlationId);
            && u.Applied? && u.action == Updated
            && u.w.s.t.customers == w.s.t.customers && u.w.s.t.orders.Keys == w.s.t.orders.Keys
  {
    KnownOrder(e, w, n, correlationId);
    AppliedEffect(e, w, n, correlationId);
  }

  lemma TurnUpdates(e: Env, b: Batch, n: Normalized, correlationId: string)
    requires Sound(b.w.s) && Live(b.w.cache, b.w.s.t.products) && InUse(e, b.w.s.t, n)
    requires n.sourceOrderId != "" && Repeatable(e, b.w.cache, n)
    ensures OnlyUpdates(b, ProcessOrder(e, b, n, correlationId), 1)
  {
    AppliedUpdates(e, b.w, n, correlationId);
  }

  // ---------------------------------------------------------------- the theorem

  /** What a stored order looks like depends on the readings only through their content. */
  lemma SameContent(e: Env, a: Work, b: Work, n: Normalized, m: Normalized, o: nat)
    requires StoredAt(e, a, n, o) && StoredAt(e, b, m, o) && SameReading(n, m)
    requires SameCatalogue(a, b) && SameIdentity(a.s.t.orders[o], b.s.t.orders[o])
    requires UniqueEmails(a.s.t.customers)
    ensures SameRow(a.s.t.orders[o], b.s.t.orders[o]) && Lines(a.s, o) == Lines(b.s, o)
  {
    assert n.items == m.items && n.email == m.email;
    FindCustomerIs(b.s.t, FindCustomer(a.s.t, n.email).value);
  }

  lemma StoredHasRef(e: Env, w: Work, n: Normalized, o: nat)
    requires StoredAt(e, w, n, o)
    ensures HasRef(w.s.t.orders[o], e.source, n.sourceOrderId)
  {
  }

  /** An order that both runs store under the same reference is the same row, stored alike. */
  lemma MentionedOrder(e: Env, a: Work, b: Work, n: Normalized, m: Normalized, o: nat)
    requires UniqueRefs(a.s.t.orders) && UniqueRefs(b.s.t.orders) && UniqueEmails(a.s.t.customers)
    requires Stored(e, a, n) && Stored(e, b, m) && SameReading(n, m)
    requires o in a.s.t.orders && HasRef(a.s.t.orders[o], e.source, n.sourceOrderId)
    requires SameCatalogue(a, b) && OnlyAdds(a.s.t, b.s.t)
    ensures o in b.s.t.orders && SameRow(a.s.t.orders[o], b.s.t.orders[o]) && Lines(a.s, o) == Lines(b.s, o)
  {
    var x :| StoredAt(e, a, n, x);
    var y :| StoredAt(e, b, m, y);
    StoredHasRef(e, a, n, x);
    StoredHasRef(e, b, m, y);
    assert x == o;
    assert SameIdentity(a.s.t.orders[o], b.s.t.orders[o]);
    assert y == o;
    SameContent(e, a, b, n, m, o);
  }

  /** Convergence of the tables. When every order has an id and an e-mail and every item is in
      the initial product lookup, the first run refuses nothing; the second run, with the orders
      read again, updates every one of them; and customers, products, orders and order lines are
      as the first run left them, up to the stamps of the run and the keys of the order items. */
  lemma SyncTwice(e: Env, s: Store, ns: seq<Normalized>, again: seq<Normalized>, c1: string, c2: string)
    requires Sound(s) && Applicable(e, Lookup(e, s), ns) && SameReadings(ns, again)
    ensures var first := Sync(e, s, ns, c1);
            var second := Sync(e, first.w.s, again, c2);
            && first.result.failed == 0 && second.result.failed == 0
            && second.result.created == 0 && second.result.updated == |ns|
            && SameButStamps(first.w.s, second.w.s)
  {
    var b1 := Batch(Work(s, Lookup(e, s)), EMPTY_RESULT);
    var first := Sync(e, s, ns, c1);
    var s1 := first.w.s;
    LookupLive(e, s.t.products, s.ids.product);
    LastWriterWins(e, b1, ns, c1);
    assert Lookup(e, s1) == Lookup(e, s);
    var b2 := Batch(Work(s1, Lookup(e, s1)), EMPTY_RESULT);
    var second := Sync(e, s1, again, c2);
    ReadAgain(e, Lookup(e, s), ns, again);
    LastWriterWins(e, b2, again, c2);
    FirstRunUses(e, b1, ns, again, c1);
    NothingAdded(e, b2, again, c2);
    RunOnlyAdds(e, b2, again, c2);
    forall o | o in s1.t.orders
      ensures SameRow(s1.t.orders[o], second.w.s.t.orders[o]) && Lines(s1, o) == Lines(second.w.s, o)
    {
      OrderUnchanged(e, first, second, b2, ns, again, c2, o);
    }
  }

  lemma OrderUnchanged(e: Env, first: Batch, second: Batch, b2: Batch, ns: seq<Normalized>, again: seq<Normalized>,
                       c2: string, o: nat)
    requires Sound(first.w.s) && b2.w == first.w && second == RunBatch(e, b2, again, c2)
    requires SameReadings(ns, again) && LastOnesStored(e, first.w, ns) && LastOnesStored(e, second.w, again)
    requires SameCatalogue(first.w, second.w) && OnlyAdds(first.w.s.t, second.w.s.t)
    requires o in first.w.s.t.orders
    ensures o in second.w.s.t.orders
    ensures SameRow(first.w.s.t.orders[o], second.w.s.t.orders[o]) && Lines(first.w.s, o) == Lines(second.w.s, o)
  {
    var row := first.w.s.t.orders[o];
    if row.sourceSystem == e.source && Mentions(ns, row.sourceOrderId) {
      var i := LastMention(ns, row.sourceOrderId);
      assert SameReading(ns[i], again[i]);
      LastOfAgain(ns, again, i);
      MentionedOrder(e, first.w, second.w, ns[i], again[i], o);
    } else {
      forall i | 0 <= i < |again|
        ensures !HasRef(row, e.source, again[i].sourceOrderId)
      {
        assert SameReading(ns[i], again[i]);
      }
      RunSpares(e, b2, again, c2, o);
    }
  }

  lemma LastOfAgain(ns: seq<Normalized>, again: seq<Normalized>, i: nat)
    requires SameReadings(ns, again) && i < |ns| && LastOf(ns, i)
    ensures LastOf(again, i)
  {
    assert SameReading(ns[i], again[i]);
    forall j | i < j < |again|
      ensures again[j].sourceOrderId != again[i].sourceOrderId
    {
      assert SameReading(ns[j], again[j]);
    }
  }

  lemma ReadAgain(e: Env, cache: map<string, nat>, ns: seq<Normalized>, again: seq<Normalized>)
    requires Applicable(e, cache, ns) && SameReadings(ns, again)
    ensures Applicable(e, cache, again)
  {
    forall i | 0 <= i < |again|
      ensures again[i].sourceOrderId != "" && Repeatable(e, cache, again[i])
    {
      assert SameReading(ns[i], again[i]) && Repeatable(e, cache, ns[i]);
      assert ns[i].items == again[i].items;
    }
  }

  /** After the first run, the references and e-mails of the batch are in use. */
  lemma FirstRunUses(e: Env, b: Batch, ns: seq<Normalized>, again: seq<Normalized>, c1: string)
    requires Sound(b.w.s) && Live(b.w.cache, b.w.s.t.products) && Applicable(e, b.w.cache, ns)
    requires SameReadings(ns, again)
    ensures AllInUse(e, RunBatch(e, b, ns, c1).w.s.t, again)
  {
    var r := RunBatch(e, b, ns, c1);
    UsesEach(e, b, ns, c1);
    forall i | 0 <= i < |again|
      ensures InUse(e, r.w.s.t, again[i])
    {
      assert InUse(e, r.w.s.t, ns[i]) && SameReading(ns[i], again[i]);
    }
  }

  lemma {:induction false} UsesEach(e: Env, b: Batch, ns: seq<Normalized>, c1: string)
    requires Sound(b.w.s) && Live(b.w.cache, b.w.s.t.products) && Applicable(e, b.w.cache, ns)
    ensures AllInUse(e, RunBatch(e, b, ns, c1).w.s.t, ns)
  {
    if ns == [] {
    } else {
      var mid := RunBatch(e, b, ns[..|ns| - 1], c1);
      var r := RunBatch(e, b, ns, c1);
      ApplicablePrefix(e, b.w.cache, ns);
      UsesEach(e, b, ns[..|ns| - 1], c1);
      LastWriterWins(e, b, ns[..|ns| - 1], c1);
      TurnStores(e, mid, ns[|ns| - 1], c1);
      TurnOnlyAdds(e, mid, ns[|ns| - 1], c1);
      AllInUseSnoc(e, mid.w.s.t, r.w, ns);
    }
  }

  lemma AllInUseSnoc(e: Env, a: Tables, r: Work, ns: seq<Normalized>)
    requires ns != [] && AllInUse(e, a, ns[..|ns| - 1]) && OnlyAdds(a, r.s.t) && Stored(e, r, ns[|ns| - 1])
    ensures AllInUse(e, r.s.t, ns)
  {
    var o :| StoredAt(e, r, ns[|ns| - 1], o);
    StoredHasRef(e, r, ns[|ns| - 1], o);
    forall i | 0 <= i < |ns|
      ensures InUse(e, r.s.t, ns[i])
    {
      if i < |ns| - 1 {
        assert InUse(e, a, ns[..|ns| - 1][i]);
        InUseStays(e, a, r.s.t, ns[i]);
      }
    }
  }

  /** Whatever the first run had to generate, the tables are stable from the second run on, as soon
      as neither of the two runs refuses an order. The orders may be read again for each run. */
  lemma StableFromSecondRun(e: Env, s: Store, s1: Store, ns: seq<Normalized>, again: seq<Normalized>,
                            third: seq<Normalized>, c1: string, c2: string, c3: string)
    requires Sound(s) && Sync(e, s, ns, c1).result.failed == 0 && s1 == Sync(e, s, ns, c1).w.s
    requires SameReadings(ns, again) && SameReadings(again, third)
    requires Sync(e, s1, again, c2).result.failed == 0
    ensures var s2 := Sync(e, s1, again, c2).w.s;
            var r := Sync(e, s2, third, c3);
            r.result.updated == |ns| && SameButStamps(s2, r.w.s)
  {
    RunSettles(e, Batch(Work(s, Lookup(e, s)), EMPTY_RESULT), ns, c1);
    SecondRunExact(e, s, ns, again, c1, c2);
    forall i | 0 <= i < |again|
      ensures again[i].sourceOrderId != "" && Repeatable(e, Lookup(e, s1), again[i])
    {
      assert Settled(e, s1, ns[i]) && SameReading(ns[i], again[i]);
      SameItems(e, s1, ns[i], again[i]);
    }
    SyncTwice(e, s1, again, third, c2, c3);
  }

  // ---------------------------------------------------------------- stability, exactly

  ghost predicate LastRows(e: Env, t: Tables, ns: seq<Normalized>) {
    forall i :: 0 <= i < |ns| && LastOf(ns, i) ==> HasRow(e, t, ns[i])
  }

  predicate AllWithEmail(ns: seq<Normalized>) {
    forall i :: 0 <= i < |ns| ==> ns[i].email != ""
  }

  lemma TurnLeavesRow(e: Env, b: Batch, n: Normalized, correlationId: string)
    requires Sound(b.w.s) && n.email != ""
    requires ProcessOrder(e, b, n, correlationId).result.failed == b.result.failed
    ensures HasRow(e, ProcessOrder(e, b, n, correlationId).w.s.t, n)
  {
    SuccessfulTurn(e, b, n, correlationId);
    AppliedRow(e, b.w, n, correlationId);
    var u := UpsertOne(e, b.w, n, correlationId);
    RowIgnoresAudits(e, u.w.s.t, ProcessOrder(e, b, n, correlationId).w.s.t, n, u.order);
  }

  lemma LastRowsStep(e: Env, mid: Batch, r: Batch, ns: seq<Normalized>, correlationId: string)
    requires ns != [] && Sound(mid.w.s) && LastRows(e, mid.w.s.t, ns[..|ns| - 1])
    requires r == ProcessOrder(e, mid, ns[|ns| - 1], correlationId) && HasRow(e, r.w.s.t, ns[|ns| - 1])
    ensures LastRows(e, r.w.s.t, ns)
  {
    forall i | 0 <= i < |ns| && LastOf(ns, i)
      ensures HasRow(e, r.w.s.t, ns[i])
    {
      if i < |ns| - 1 {
        LastOfPrefix(ns, i);
        assert HasRow(e, mid.w.s.t, ns[..|ns| - 1][i]);
        var o :| RowAt(e, mid.w.s.t, ns[i], o);
        RowSurvives(e, mid, ns[i], ns[|ns| - 1], correlationId, o);
      }
    }
  }

  lemma NoneFailedBefore(e: Env, b: Batch, ns: seq<Normalized>, correlationId: string)
    requires Sound(b.w.s) && ns != []
    requires RunBatch(e, b, ns, correlationId).result.failed == b.result.failed
    ensures RunBatch(e, b, ns[..|ns| - 1], correlationId).result.failed == b.result.failed
  {
    FailedNeverDrops(e, b, ns[..|ns| - 1], correlationId);
    TurnNeverDropsFailed(e, RunBatch(e, b, ns[..|ns| - 1], correlationId), ns[|ns| - 1], correlationId);
  }

  /** After a run that refused nothing, whatever products it generated, the last order with a
      reference is the one whose row is stored under it. */
  lemma {:induction false} RunLeavesRows(e: Env, b: Batch, ns: seq<Normalized>, correlationId: string)
    requires Sound(b.w.s) && AllWithEmail(ns)
    requires RunBatch(e, b, ns, correlationId).result.failed == b.result.failed
    ensures LastRows(e, RunBatch(e, b, ns, correlationId).w.s.t, ns)
  {
    if ns != [] {
      AllWithEmailPrefix(ns);
      NoneFailedBefore(e, b, ns, correlationId);
      RunLeavesRows(e, b, ns[..|ns| - 1], correlationId);
      LastRowsTurn(e, RunBatch(e, b, ns[..|ns| - 1], correlationId), ns, correlationId);
    }
  }

  lemma LastRowsTurn(e: Env, mid: Batch, ns: seq<Normalized>, correlationId: string)
    requires ns != [] && ns[|ns| - 1].email != "" && Sound(mid.w.s) && LastRows(e, mid.w.s.t, ns[..|ns| - 1])
    requires ProcessOrder(e, mid, ns[|ns| - 1], correlationId).result.failed == mid.result.failed
    ensures LastRows(e, ProcessOrder(e, mid, ns[|ns| - 1], correlationId).w.s.t, ns)
  {
    TurnLeavesRow(e, mid, ns[|ns| - 1], correlationId);
    LastRowsStep(e, mid, ProcessOrder(e, mid, ns[|ns| - 1], correlationId), ns, correlationId);
  }

  lemma AllWithEmailPrefix(ns: seq<Normalized>)
    requires ns != [] && AllWithEmail(ns)
    ensures AllWithEmail(ns[..|ns| - 1]) && ns[|ns| - 1].email != ""
  {
  }

  /** The lines stored under the order's reference are those that the product lookup gives now. */
  ghost predicate LinesAsLookedUp(e: Env, s: Store, n: Normalized) {
    forall o :: o in s.t.orders && HasRef(s.t.orders[o], e.source, n.sourceOrderId) ==>
      Lines(s, o) == ResolvedLines(e, Lookup(e, s), n.items)
  }

  ghost predicate LastLinesAsLookedUp(e: Env, s: Store, ns: seq<Normalized>) {
    forall i :: 0 <= i < |ns| && LastOf(ns, i) ==> LinesAsLookedUp(e, s, ns[i])
  }

  /** Rows that are right, with lines as looked up, are orders stored as a run over the lookup would. */
  lemma RowsAndLinesStored(e: Env, s: Store, ns: seq<Normalized>)
    requires LastRows(e, s.t, ns) && LastLinesAsLookedUp(e, s, ns)
    ensures LastOnesStored(e, Work(s, Lookup(e, s)), ns)
  {
    forall i | 0 <= i < |ns| && LastOf(ns, i)
      ensures Stored(e, Work(s, Lookup(e, s)), ns[i])
    {
      assert HasRow(e, s.t, ns[i]) && LinesAsLookedUp(e, s, ns[i]);
      var o :| RowAt(e, s.t, ns[i], o);
      assert HasRef(s.t.orders[o], e.source, ns[i].sourceOrderId);
      assert StoredAt(e, Work(s, Lookup(e, s)), ns[i], o);
    }
  }

  /** If the run after it leaves an order as it was, the order had the lines the lookup gives. */
  lemma UnchangedIsAsLookedUp(e: Env, s1: Store, w: Work, n: Normalized, m: Normalized)
    requires SameButStamps(s1, w.s) && Stored(e, w, m) && SameReading(n, m)
    requires w.cache == Lookup(e, s1) && UniqueRefs(w.s.t.orders)
    ensures LinesAsLookedUp(e, s1, n)
  {
    var y :| StoredAt(e, w, m, y);
    StoredHasRef(e, w, m, y);
    assert n.items == m.items && n.sourceOrderId == m.sourceOrderId;
    forall o | o in s1.t.orders && HasRef(s1.t.orders[o], e.source, n.sourceOrderId)
      ensures Lines(s1, o) == ResolvedLines(e, Lookup(e, s1), n.items)
    {
      assert SameRow(s1.t.orders[o], w.s.t.orders[o]);
      assert HasRef(w.s.t.orders[o], e.source, m.sourceOrderId) && o == y;
    }
  }

  /** What the second run does when it accepts every order: it updates each, touches no customer and no
      product, and stores the last order of each reference as the lookup resolves it. */
  lemma AcceptedAgain(e: Env, s: Store, s1: Store, ns: seq<Normalized>, again: seq<Normalized>, c1: string, c2: string)
    requires Sound(s) && Sync(e, s, ns, c1).result.failed == 0 && s1 == Sync(e, s, ns, c1).w.s
    requires SameReadings(ns, again) && forall i :: 0 <= i < |ns| ==> Repeatable(e, Lookup(e, s1), ns[i])
    ensures var b2 := Batch(Work(s1, Lookup(e, s1)), EMPTY_RESULT);
            var second := Sync(e, s1, again, c2);
            && OnlyUpdates(b2, second, |again|) && SameCatalogue(b2.w, second.w)
            && OnlyAdds(s1.t, second.w.s.t) && LastOnesStored(e, second.w, again)
    ensures LastRows(e, s1.t, ns)
  {
    var first := Batch(Work(s, Lookup(e, s)), EMPTY_RESULT);
    var b2 := Batch(Work(s1, Lookup(e, s1)), EMPTY_RESULT);
    RunSettles(e, first, ns, c1);
    RunLeavesRows(e, first, ns, c1);
    forall i | 0 <= i < |again|
      ensures again[i].sourceOrderId != "" && Repeatable(e, Lookup(e, s1), again[i]) && InUse(e, s1.t, again[i])
    {
      assert Settled(e, s1, ns[i]) && SameReading(ns[i], again[i]);
      SameItems(e, s1, ns[i], again[i]);
    }
    LookupLive(e, s1.t.products, s1.ids.product);
    LastWriterWins(e, b2, again, c2);
    NothingAdded(e, b2, again, c2);
    RunOnlyAdds(e, b2, again, c2);
  }

  /** Stability of the tables, exactly. When a run refused nothing and the same orders, read again, are
      all accepted, the second run leaves customers, products, orders and order lines as they were if
      and only if the last order of each reference has the lines that the product lookup gives for it
      after the first run. */
  lemma AcceptedRepeatStable(e: Env, s: Store, s1: Store, ns: seq<Normalized>, again: seq<Normalized>,
                             c1: string, c2: string)
    requires Sound(s) && Sync(e, s, ns, c1).result.failed == 0 && s1 == Sync(e, s, ns, c1).w.s
    requires SameReadings(ns, again) && forall i :: 0 <= i < |ns| ==> Repeatable(e, Lookup(e, s1), ns[i])
    ensures SameButStamps(s1, Sync(e, s1, again, c2).w.s) <==> LastLinesAsLookedUp(e, s1, ns)
  {
    AcceptedAgain(e, s, s1, ns, again, c1, c2);
    var second := Sync(e, s1, again, c2);
    if SameButStamps(s1, second.w.s) {
      forall i | 0 <= i < |ns| && LastOf(ns, i)
        ensures LinesAsLookedUp(e, s1, ns[i])
      {
        LastOfAgain(ns, again, i);
        assert SameReading(ns[i], again[i]) && Stored(e, second.w, again[i]);
        UnchangedIsAsLookedUp(e, s1, second.w, ns[i], again[i]);
      }
    }
    if LastLinesAsLookedUp(e, s1, ns) {
      StableWhenAsLookedUp(e, s1, ns, again, c2);
    }
  }

  lemma StableWhenAsLookedUp(e: Env, s1: Store, ns: seq<Normalized>, again: seq<Normalized>, c2: string)
    requires Sound(s1) && SameReadings(ns, again) && LastRows(e, s1.t, ns) && LastLinesAsLookedUp(e, s1, ns)
    requires var b2 := Batch(Work(s1, Lookup(e, s1)), EMPTY_RESULT);
             var second := Sync(e, s1, again, c2);
             && OnlyUpdates(b2, second, |again|) && SameCatalogue(b2.w, second.w)
             && OnlyAdds(s1.t, second.w.s.t) && LastOnesStored(e, second.w, again)
    ensures SameButStamps(s1, Sync(e, s1, again, c2).w.s)
  {
    var b2 := Batch(Work(s1, Lookup(e, s1)), EMPTY_RESULT);
    var second := Sync(e, s1, again, c2);
    RowsAndLinesStored(e, s1, ns);
    forall o | o in s1.t.orders
      ensures SameRow(s1.t.orders[o], second.w.s.t.orders[o]) && Lines(s1, o) == Lines(second.w.s, o)
    {
      OrderUnchanged(e, b2, second, b2, ns, again, c2, o);
    }
  }

  /** Idempotence of the sync, exactly. After a run without failures, the same orders sent again are all
      accepted and leave the tables as they were if and only if every order has an e-mail, every item is
      in the lookup, and the last order of each reference has the lines that the lookup gives for it. */
  lemma RepeatExact(e: Env, s: Store, s1: Store, ns: seq<Normalized>, again: seq<Normalized>, c1: string, c2: string)
    requires Sound(s) && Sync(e, s, ns, c1).result.failed == 0 && s1 == Sync(e, s, ns, c1).w.s
    requires SameReadings(ns, again)
    ensures var second := Sync(e, s1, again, c2);
            second.result.failed == 0 && SameButStamps(s1, second.w.s) <==>
              (forall i :: 0 <= i < |ns| ==> Repeatable(e, Lookup(e, s1), ns[i])) && LastLinesAsLookedUp(e, s1, ns)
  {
    SecondRunExact(e, s, ns, again, c1, c2);
    if forall i :: 0 <= i < |ns| ==> Repeatable(e, Lookup(e, s1), ns[i]) {
      AcceptedRepeatStable(e, s, s1, ns, again, c1, c2);
    }
  }
}
