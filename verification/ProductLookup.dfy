/** Facts about the product lookup: which keys it has and what they name. */
module ProductLookup {
  import opened Database
  import opened Normalization
  import opened OrderSync

  /** Every key names a live product. */
  ghost predicate Live(cache: map<string, nat>, products: map<nat, Product>) {
    forall k :: k in cache ==> cache[k] in products
  }

  lemma {:induction false} LookupLive(e: Env, products: map<nat, Product>, hi: nat)
    ensures Live(LookupBelow(e, products, hi), products)
  {
    if hi == 0 {
    } else {
      LookupLive(e, products, hi - 1);
    }
  }

  /** A stored product is found under its SKU, its name and its id. */
  lemma {:induction false} LookupFinds(e: Env, products: map<nat, Product>, hi: nat, id: nat)
    requires id < hi && id in products
    ensures var c := LookupBelow(e, products, hi);
            e.lower(products[id].sku) in c && e.lower(products[id].name) in c && e.showId(id) in c
  {
    if id < hi - 1 {
      LookupFinds(e, products, hi - 1, id);
    }
  }

  /** A key of a stored product: its SKU or its name in lower case, or its id. */
  predicate KeyOf(e: Env, p: Product, id: nat, key: string) {
    key == e.lower(p.sku) || key == e.lower(p.name) || key == e.showId(id)
  }

  ghost predicate KeyOfSome(e: Env, products: map<nat, Product>, hi: nat, key: string) {
    exists id :: id < hi && id in products && KeyOf(e, products[id], id, key)
  }

  /** `id` is the last of the products below `hi` with this key. */
  ghost predicate LastWithKey(e: Env, products: map<nat, Product>, hi: nat, key: string, id: nat) {
    && id < hi && id in products && KeyOf(e, products[id], id, key)
    && forall other :: id < other < hi && other in products ==> !KeyOf(e, products[other], other, key)
  }

  /** The lookup, exactly: it has the keys of the stored products and no other, and of the products that
      share a key it names the last. */
  lemma {:induction false} LookupExact(e: Env, products: map<nat, Product>, hi: nat, key: string)
    ensures key in LookupBelow(e, products, hi) <==> KeyOfSome(e, products, hi, key)
    ensures key in LookupBelow(e, products, hi) ==>
              LastWithKey(e, products, hi, key, LookupBelow(e, products, hi)[key])
  {
    if hi > 0 {
      var top := hi - 1;
      LookupExact(e, products, top, key);
      if top in products && KeyOf(e, products[top], top, key) {
        assert KeyOfSome(e, products, hi, key);
      } else if KeyOfSome(e, products, top, key) {
        var id :| id < top && id in products && KeyOf(e, products[id], id, key);
        assert KeyOfSome(e, products, hi, key);
      }
    }
  }

  /** Adding products never loses a key. */
  lemma {:induction false} LookupGrows(e: Env, a: map<nat, Product>, hiA: nat, b: map<nat, Product>, hiB: nat)
    requires Extends(a, b) && hiA <= hiB
    ensures LookupBelow(e, a, hiA).Keys <= LookupBelow(e, b, hiB).Keys
    decreases hiB
  {
    if hiB == 0 {
    } else if hiA == hiB {
      LookupGrows(e, a, hiA - 1, b, hiB - 1);
    } else {
      LookupGrows(e, a, hiA, b, hiB - 1);
    }
  }

  /** Only the rows below the bound matter, and identity values that name no row do not. */
  lemma {:induction false} LookupStable(e: Env, a: map<nat, Product>, hiA: nat, b: map<nat, Product>, hiB: nat)
    requires hiA <= hiB
    requires forall id :: id < hiA ==> (id in a <==> id in b) && (id in a ==> a[id] == b[id])
    requires forall id :: hiA <= id < hiB ==> id !in b
    ensures LookupBelow(e, a, hiA) == LookupBelow(e, b, hiB)
    decreases hiB
  {
    if hiB == 0 {
    } else if hiA == hiB {
      LookupStable(e, a, hiA - 1, b, hiB - 1);
    } else {
      LookupStable(e, a, hiA, b, hiB - 1);
    }
  }

  /** Inserting a product adds its three keys to the lookup. */
  lemma LookupAfterInsert(e: Env, s: Store, row: Product)
    requires Sound(s) && InsertProduct(s, row).Written?
    ensures Lookup(e, InsertProduct(s, row).s) == AddKeys(e, Lookup(e, s), row, s.ids.product)
  {
    var after := s.t.products[s.ids.product := row];
    assert InsertProduct(s, row).s.t.products == after;
    LookupStable(e, s.t.products, s.ids.product, after, s.ids.product);
  }
}
