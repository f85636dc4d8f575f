/** What the writes of the management endpoints leave in the tables, column by column, when the row
    has changed since the request read it. */
module CatalogWrites {
  import opened Wrappers
  import opened Database
  import opened Catalog

  // ---------------------------------------------------------------- columns

  /** One column of an UPDATE: what the request changed takes the value it wanted; what it left alone
      keeps the value that is stored by now, whoever stored it. */
  predicate Column<T(==)>(loaded: T, wanted: T, before: T, after: T) {
    && (wanted == loaded ==> after == before)
    && (wanted != loaded ==> after == wanted)
  }

  predicate ProductColumns(loaded: Product, wanted: Product, before: Product, after: Product) {
    && Column(loaded.shop, wanted.shop, before.shop, after.shop)
    && Column(loaded.name, wanted.name, before.name, after.name)
    && Column(loaded.sku, wanted.sku, before.sku, after.sku)
    && Column(loaded.description, wanted.description, before.description, after.description)
    && Column(loaded.price, wanted.price, before.price, after.price)
    && Column(loaded.stock, wanted.stock, before.stock, after.stock)
    && Column(loaded.category, wanted.category, before.category, after.category)
    && Column(loaded.imageUrl, wanted.imageUrl, before.imageUrl, after.imageUrl)
    && Column(loaded.isActive, wanted.isActive, before.isActive, after.isActive)
  }

  predicate ShopColumns(loaded: Shop, wanted: Shop, before: Shop, after: Shop) {
    && Column(loaded.name, wanted.name, before.name, after.name)
    && Column(loaded.slug, wanted.slug, before.slug, after.slug)
    && Column(loaded.storefrontUrl, wanted.storefrontUrl, before.storefrontUrl, after.storefrontUrl)
    && Column(loaded.crmBaseUrl, wanted.crmBaseUrl, before.crmBaseUrl, after.crmBaseUrl)
    && Column(loaded.region, wanted.region, before.region, after.region)
    && Column(loaded.currency, wanted.currency, before.currency, after.currency)
    && Column(loaded.status, wanted.status, before.status, after.status)
    && Column(loaded.notes, wanted.notes, before.notes, after.notes)
    && Column(loaded.contact, wanted.contact, before.contact, after.contact)
  }

  predicate StatusColumns(loaded: Order, wanted: Order, before: Order, after: Order) {
    && Column(loaded.status, wanted.status, before.status, after.status)
    && Column(loaded.backlogStatus, wanted.backlogStatus, before.backlogStatus, after.backlogStatus)
    && after == before.(status := after.status, backlogStatus := after.backlogStatus)
  }

  /** A product row with the values of a form. */
  predicate HoldsProduct(row: Product, f: ProductForm) {
    && row.shop == f.shop && row.name == f.name && row.sku == f.sku && row.description == f.description
    && row.price == f.price && row.stock == f.stock && row.category == f.category
    && row.imageUrl == f.imageUrl && row.isActive == f.isActive
  }

  /** A shop row with the values of a form. */
  predicate HoldsShop(row: Shop, f: ShopForm) {
    && row.name == f.name && row.slug == f.slug && row.storefrontUrl == f.storefrontUrl
    && row.crmBaseUrl == f.crmBaseUrl && row.region == f.region && row.currency == f.currency
    && row.status == f.status && row.notes == f.notes
  }

  // ---------------------------------------------------------------- edits

  /** Editing a product, however long after it was read. Nothing to change writes nothing. Otherwise the
      row must still be there, a new SKU must be free and a new shop must exist; then the row gets exactly
      the changed columns, and no other row and no other table changes. */
  lemma EditProductExact(s: Store, id: nat, loaded: Product, wanted: Product, reply: Response)
    requires Sound(s)
    ensures var r := Write(s, EditProduct(id, loaded, wanted, reply));
            && (loaded == wanted ==> r == Committed(s, reply))
            && (loaded != wanted && id !in s.t.products ==> r == RolledBack(s, RowGone))
            && (loaded != wanted && id in s.t.products ==>
                 var skuTaken := loaded.sku != wanted.sku && SkuElsewhere(s.t, wanted.sku, id);
                 var noShop := loaded.shop != wanted.shop && NamesMissingShop(s.t, wanted.shop);
                 if skuTaken then r == RolledBack(s, SkuTaken)
                 else if noShop then r == RolledBack(s, NoSuchShop)
                 else
                   && r.Committed? && r.response == reply && r.s.ids == s.ids && id in r.s.t.products
                   && ProductColumns(loaded, wanted, s.t.products[id], r.s.t.products[id])
                   && r.s.t == s.t.(products := s.t.products[id := r.s.t.products[id]]))
  {
    if loaded != wanted && id in s.t.products {
      MergedColumns(loaded, wanted, s.t.products[id]);
      EditedProduct(s, id, loaded, wanted, reply);
    }
  }

  lemma MergedColumns(loaded: Product, wanted: Product, current: Product)
    ensures ProductColumns(loaded, wanted, current, MergeProduct(loaded, wanted, current))
  {
  }

  lemma EditedProduct(s: Store, id: nat, loaded: Product, wanted: Product, reply: Response)
    requires Sound(s) && loaded != wanted && id in s.t.products
    ensures var r := WriteEditProduct(s, id, loaded, wanted, reply);
            var row := MergeProduct(loaded, wanted, s.t.products[id]);
            if loaded.sku != wanted.sku && SkuElsewhere(s.t, wanted.sku, id) then r == RolledBack(s, SkuTaken)
            else if loaded.shop != wanted.shop && NamesMissingShop(s.t, wanted.shop) then
              r == RolledBack(s, NoSuchShop)
            else r == Committed(s.(t := s.t.(products := s.t.products[id := row])), reply)
  {
    if loaded.sku == wanted.sku {
      assert !SkuElsewhere(s.t, s.t.products[id].sku, id);
    }
  }

  lemma EditShopExact(s: Store, id: nat, loaded: Shop, wanted: Shop)
    requires Sound(s)
    ensures var r := Write(s, EditShop(id, loaded, wanted));
            && (loaded == wanted ==> r == Committed(s, Changed))
            && (loaded != wanted && id !in s.t.shops ==> r == RolledBack(s, RowGone))
            && (loaded != wanted && id in s.t.shops ==>
                 if loaded.slug != wanted.slug && SlugElsewhere(s.t, wanted.slug, id) then
                   r == RolledBack(s, SlugTaken)
                 else
                   && r.Committed? && r.response == Changed && r.s.ids == s.ids && id in r.s.t.shops
                   && ShopColumns(loaded, wanted, s.t.shops[id], r.s.t.shops[id])
                   && r.s.t == s.t.(shops := s.t.shops[id := r.s.t.shops[id]]))
  {
    if loaded != wanted && id in s.t.shops && loaded.slug == wanted.slug {
      assert !SlugElsewhere(s.t, s.t.shops[id].slug, id);
    }
  }

  /** Setting a status overwrites at most two columns of the order as it is stored by now. */
  lemma EditStatusExact(s: Store, id: nat, loaded: Order, wanted: Order)
    requires Sound(s)
    ensures var r := Write(s, EditStatus(id, loaded, wanted));
            && (loaded == wanted ==> r == Committed(s, Changed))
            && (loaded != wanted && id !in s.t.orders ==> r == RolledBack(s, RowGone))
            && (loaded != wanted && id in s.t.orders ==>
                 && r.Committed? && r.response == Changed && r.s.ids == s.ids && id in r.s.t.orders
                 && StatusColumns(loaded, wanted, s.t.orders[id], r.s.t.orders[id])
                 && r.s.t == s.t.(orders := s.t.orders[id := r.s.t.orders[id]]))
  {
  }

  /** Removing a shop takes it off the products that have it by now, and changes nothing else. */
  lemma RemoveShopExact(s: Store, id: nat)
    requires Sound(s)
    ensures var r := Write(s, RemoveShop(id));
            && r.Committed? && r.response == Deleted && r.s.ids == s.ids
            && r.s.t == s.t.(shops := s.t.shops - {id}, products := r.s.t.products)
            && r.s.t.products.Keys == s.t.products.Keys
            && forall p :: p in s.t.products ==>
                 r.s.t.products[p] == if s.t.products[p].shop == Some(id) then s.t.products[p].(shop := None)
                                      else s.t.products[p]
  {
  }

  // ---------------------------------------------------------------- changes that overtake each other

  lemma PlannedArchive(seen: Store, id: nat)
    requires Read(seen, DeleteProduct(id)).EditProduct?
    ensures id in seen.t.products
    ensures Read(seen, DeleteProduct(id))
         == EditProduct(id, seen.t.products[id], seen.t.products[id].(isActive := false), Archived)
  {
  }

  /** The archive has changed one column of the row in `s`: it is inactive if it was active when read. */
  predicate Archives(s: Store, id: nat, wasActive: bool, r: Written) {
    && id in s.t.products && r.Committed? && r.response == Archived
    && var row := s.t.products[id];
       r.s.t == s.t.(products := s.t.products[id := row.(isActive := if wasActive then false else row.isActive)])
  }

  lemma ArchiveWrites(s: Store, id: nat, loaded: Product)
    requires Sound(s) && id in s.t.products
    ensures Archives(s, id, loaded.isActive,
                     Write(s, EditProduct(id, loaded, loaded.(isActive := false), Archived)))
  {
    EditProductExact(s, id, loaded, loaded.(isActive := false), Archived);
    assert s.t.products[id := s.t.products[id]] == s.t.products;
  }

  /** An archive that writes late changes one column of the row it finds. */
  lemma LateArchive(seen: Store, s: Store, id: nat)
    requires Sound(s) && id in s.t.products && Read(seen, DeleteProduct(id)).EditProduct?
    ensures id in seen.t.products
    ensures Archives(s, id, seen.t.products[id].isActive, Write(s, Read(seen, DeleteProduct(id))))
  {
    PlannedArchive(seen, id);
    ArchiveWrites(s, id, seen.t.products[id]);
  }

  /** The update has stored the form, and nothing else. */
  predicate Updates(s: Store, id: nat, f: ProductForm, r: Written) {
    && r.Committed? && r.response == Changed && id in r.s.t.products && HoldsProduct(r.s.t.products[id], f)
    && r.s.t == s.t.(products := s.t.products[id := r.s.t.products[id]])
  }

  lemma UpdatesThenArchives(s: Store, id: nat, f: ProductForm, wasActive: bool, updated: Written, archived: Written)
    requires Updates(s, id, f, updated) && Archives(updated.s, id, wasActive, archived)
    ensures id in archived.s.t.products
    ensures var row := archived.s.t.products[id];
            && row.isActive == (f.isActive && !wasActive) && HoldsProduct(row.(isActive := f.isActive), f)
            && archived.s.t == s.t.(products := s.t.products[id := row])
  {
  }

  /** A change of a product that commits between the reads and the write of its archive is kept: the row
      has the values of the form, and is inactive if it was active when the archive read it. */
  lemma UpdatedThenArchived(seen: Store, s: Store, id: nat, f: ProductForm)
    requires Sound(s) && Read(seen, DeleteProduct(id)).EditProduct?
    requires Read(s, UpdateProduct(id, f)).EditProduct?
    ensures var updated := Write(s, Read(s, UpdateProduct(id, f)));
            var archived := Write(updated.s, Read(seen, DeleteProduct(id)));
            && updated.Committed? && updated.response == Changed
            && archived.Committed? && archived.response == Archived
            && id in seen.t.products && id in archived.s.t.products
            && var row := archived.s.t.products[id];
               && row.isActive == (f.isActive && !seen.t.products[id].isActive)
               && HoldsProduct(row.(isActive := f.isActive), f)
               && archived.s.t == s.t.(products := s.t.products[id := row])
  {
    UpdateInTime(s, id, f);
    var updated := Write(s, Read(s, UpdateProduct(id, f)));
    LateArchive(seen, updated.s, id);
    UpdatesThenArchives(s, id, f, seen.t.products[id].isActive, updated,
                        Write(updated.s, Read(seen, DeleteProduct(id))));
  }

  lemma EditInTime(s: Store, id: nat, wanted: Product, reply: Response)
    requires Sound(s) && id in s.t.products
    requires !SkuElsewhere(s.t, wanted.sku, id) && !NamesMissingShop(s.t, wanted.shop)
    ensures Write(s, EditProduct(id, s.t.products[id], wanted, reply))
         == Committed(s.(t := s.t.(products := s.t.products[id := wanted])), reply)
  {
    var loaded := s.t.products[id];
    EditProductExact(s, id, loaded, wanted, reply);
    assert s.t.products[id := loaded] == s.t.products;
  }

  lemma PlannedUpdate(s: Store, id: nat, f: ProductForm)
    requires Read(s, UpdateProduct(id, f)).EditProduct?
    ensures id in s.t.products && !SkuElsewhere(s.t, f.sku, id) && !NamesMissingShop(s.t, f.shop)
    ensures Read(s, UpdateProduct(id, f)) == EditProduct(id, s.t.products[id], ProductRow(f), Changed)
  {
  }

  /** A change that writes at once stores the form. */
  lemma UpdateInTime(s: Store, id: nat, f: ProductForm)
    requires Sound(s) && Read(s, UpdateProduct(id, f)).EditProduct?
    ensures Updates(s, id, f, Write(s, Read(s, UpdateProduct(id, f))))
    ensures Write(s, Read(s, UpdateProduct(id, f))).s.ids == s.ids
  {
    PlannedUpdate(s, id, f);
    EditInTime(s, id, ProductRow(f), Changed);
  }
}
