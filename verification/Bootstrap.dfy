/** Bringing a database up to date when the application starts: missing tables and columns, the
    bootstrap administrator beside users owned by another application, and the demo shops. */
module Bootstrap {
  import opened Wrappers
  import opened Database

  // ---------------------------------------------------------------- schema

  /** The columns of each table there is, and whether orders carry the constraint on source references. */
  datatype Schema = Schema(columns: map<string, set<string>>, refConstraint: bool)

  datatype Ddl = CreateTable(table: string) | AddColumn(table: string, column: string) | AddRefConstraint

  const ORDER_COLUMNS := [
    "source_system", "source_order_id", "source_customer_email", "sync_status", "backlog_status", "sync_error",
    "source_payload", "correlation_id", "last_synced_at"
  ]

  const SHOP_COLUMNS := [
    "address", "coordinates", "contact_email", "contact_phone", "is_active", "slug", "storefront_url",
    "crm_base_url", "region", "currency", "status", "notes", "updated_at"
  ]

  /** The columns that an older table may lack, in the order in which they are added. */
  function Wanted(table: string): seq<string> {
    if table == "orders" then ORDER_COLUMNS
    else if table == "products" then ["image_url", "shop_id"]
    else if table == "shops" then SHOP_COLUMNS
    else []
  }

  /** The declared columns of the tables concerned; other tables are created in the same way. */
  const DECLARED: map<string, set<string>> := map[
    "orders" := {
      "id", "customer_id", "total", "status", "notes", "shipping_address", "source_system", "source_order_id",
      "source_customer_email", "sync_status", "backlog_status", "sync_error", "source_payload", "correlation_id",
      "last_synced_at", "created_at"
    },
    "products" := {
      "id", "shop_id", "name", "sku", "description", "price", "stock", "category", "image_url", "is_active",
      "created_at"
    },
    "shops" := {
      "id", "name", "address", "coordinates", "contact_email", "contact_phone", "is_active", "slug", "storefront_url",
      "crm_base_url", "region", "currency", "status", "notes", "created_at", "updated_at"
    },
    "order_sync_audit" := {
      "id", "source_system", "source_order_id", "sync_action", "sync_status", "message", "correlation_id", "trace_id",
      "created_at"
    }
  ]

  const AUDIT_TABLE := "order_sync_audit"

  const TABLES := ["orders", "products", "shops", AUDIT_TABLE]

  function Columns(wanted: seq<string>): set<string> {
    set c | c in wanted
  }

  /** The statements that add what is missing, in order. */
  function Additions(table: string, existing: set<string>, wanted: seq<string>): seq<Ddl> {
    if wanted == [] then []
    else
      var last := wanted[|wanted| - 1];
      Additions(table, existing, wanted[..|wanted| - 1]) + if last in existing then [] else [AddColumn(table, last)]
  }

  lemma OneAddition(table: string, existing: set<string>, column: string)
    ensures Additions(table, existing, [column]) == if column in existing then [] else [AddColumn(table, column)]
  {
    assert Additions(table, existing, [column][..0]) == [];
  }

  lemma {:induction false} NoAdditions(table: string, existing: set<string>, wanted: seq<string>)
    requires Columns(wanted) <= existing
    ensures Additions(table, existing, wanted) == []
  {
    if wanted != [] {
      assert wanted[|wanted| - 1] in Columns(wanted);
      assert forall c :: c in wanted[..|wanted| - 1] ==> c in Columns(wanted);
      NoAdditions(table, existing, wanted[..|wanted| - 1]);
    }
  }

  lemma {:induction false} AdditionsAreMissing(table: string, existing: set<string>, wanted: seq<string>, d: Ddl)
    ensures d in Additions(table, existing, wanted)
       <==> d.AddColumn? && d.table == table && d.column in wanted && d.column !in existing
  {
    if wanted != [] {
      var front, last := wanted[..|wanted| - 1], wanted[|wanted| - 1];
      AdditionsAreMissing(table, existing, front, d);
      assert wanted == front + [last];
    }
  }

  function WithColumns(s: Schema, table: string, wanted: seq<string>): Schema
    requires table in s.columns
  {
    s.(columns := s.columns[table := s.columns[table] + Columns(wanted)])
  }

  lemma NoColumns(s: Schema, table: string)
    requires table in s.columns
    ensures WithColumns(s, table, []) == s
  {
    assert s.columns[table] + Columns([]) == s.columns[table];
  }

  lemma OneMoreColumn(s: Schema, table: string, wanted: seq<string>, column: string)
    requires table in s.columns
    ensures var t := WithColumns(s, table, wanted);
            WithColumns(s, table, wanted + [column]) ==
            if column in s.columns[table] then t else t.(columns := t.columns[table := t.columns[table] + {column}])
  {
    assert Columns(wanted + [column]) == Columns(wanted) + {column};
    assert s.columns[table] + (Columns(wanted) + {column}) == (s.columns[table] + Columns(wanted)) + {column};
    if column in s.columns[table] {
      assert s.columns[table] + Columns(wanted + [column]) == s.columns[table] + Columns(wanted);
    }
  }

  function CreateOne(s: Schema, table: string): Schema
    requires table in DECLARED
  {
    if table in s.columns then s
    else Schema(s.columns[table := DECLARED[table]], s.refConstraint || table == "orders")
  }

  function Created(s: Schema, tables: seq<string>): Schema
    requires forall t :: t in tables ==> t in DECLARED
  {
    if tables == [] then s else CreateOne(Created(s, tables[..|tables| - 1]), tables[|tables| - 1])
  }

  function Creations(s: Schema, tables: seq<string>): seq<Ddl> {
    if tables == [] then []
    else
      var last := tables[|tables| - 1];
      Creations(s, tables[..|tables| - 1]) + if last in s.columns then [] else [CreateTable(last)]
  }

  lemma {:induction false} CreatedKeeps(s: Schema, tables: seq<string>, table: string)
    requires (forall t :: t in tables ==> t in DECLARED) && table !in tables
    ensures table in Created(s, tables).columns <==> table in s.columns
    ensures table in s.columns ==> Created(s, tables).columns[table] == s.columns[table]
  {
    if tables != [] {
      CreatedKeeps(s, tables[..|tables| - 1], table);
    }
  }

  function Statements(s: Schema, table: string, wanted: seq<string>): seq<Ddl> {
    if table in s.columns then Additions(table, s.columns[table], wanted) else []
  }

  function OrderStatements(s: Schema): seq<Ddl> {
    if "orders" !in s.columns then []
    else
      Statements(s, "orders", ORDER_COLUMNS)
      + (if s.refConstraint then [] else [AddRefConstraint])
      + (if AUDIT_TABLE in s.columns then [] else [CreateTable(AUDIT_TABLE)])
  }

  function IfPresent(s: Schema, table: string, wanted: seq<string>): Schema {
    if table in s.columns then WithColumns(s, table, wanted) else s
  }

  function OrdersEnsured(s: Schema): Schema {
    if "orders" !in s.columns then s
    else CreateOne(WithColumns(s, "orders", ORDER_COLUMNS).(refConstraint := true), AUDIT_TABLE)
  }

  function ShopsEnsured(s: Schema): Schema {
    if "shops" in s.columns then WithColumns(s, "shops", SHOP_COLUMNS) else CreateOne(s, "shops")
  }

  function CatalogEnsured(s: Schema): Schema {
    IfPresent(ShopsEnsured(s), "products", ["shop_id"])
  }

  function CatalogStatements(s: Schema): seq<Ddl> {
    (if "shops" in s.columns then Statements(s, "shops", SHOP_COLUMNS) else [CreateTable("shops")])
    + Statements(s, "products", ["shop_id"])
  }

  /** What the catalogue still lacks does not depend on the columns added before. */
  lemma CatalogUnaffected(created: Schema)
    requires "products" in created.columns
    ensures CatalogStatements(IfPresent(OrdersEnsured(created), "products", ["image_url"]))
         == CatalogStatements(created)
    ensures Statements(OrdersEnsured(created), "products", ["image_url"])
         == Statements(created, "products", ["image_url"])
  {
    var s := IfPresent(OrdersEnsured(created), "products", ["image_url"]);
    OneAddition("products", created.columns["products"], "shop_id");
    OneAddition("products", s.columns["products"], "shop_id");
  }

  /** The schema after the upgrade, and the statements issued. */
  function UpgradedSchema(s: Schema): Schema {
    CatalogEnsured(IfPresent(OrdersEnsured(Created(s, TABLES)), "products", ["image_url"]))
  }

  lemma Regroup(issued: seq<Ddl>, a: seq<Ddl>, b: seq<Ddl>, c: seq<Ddl>, d: seq<Ddl>)
    ensures issued + a + b + c + d == issued + (a + b + c + d)
  {
  }

  function UpgradeStatements(s: Schema): seq<Ddl> {
    var created := Created(s, TABLES);
    Creations(s, TABLES) + OrderStatements(created) + Statements(created, "products", ["image_url"])
    + CatalogStatements(created)
  }

  // ---------------------------------------------------------------- users and shops

  datatype User = User(username: string, email: string, hash: string, role: string)

  const ADMIN_NAME := "admin"
  const ADMIN_ROLE := "admin"
  const ADMIN_EMAIL := "admin@crm-enterprise.local"

  predicate NameTaken(users: map<nat, User>, name: string) {
    exists u :: u in users && users[u].username == name
  }

  predicate HasAdmin(users: map<nat, User>) {
    exists u :: u in users && users[u].email == ADMIN_EMAIL
  }

  ghost predicate UniqueUsers(users: map<nat, User>) {
    && (forall a, b :: a in users && b in users && users[a].username == users[b].username ==> a == b)
    && (forall a, b :: a in users && b in users && users[a].email == users[b].email ==> a == b)
  }

  const PRIMARY_SHOP := Shop("Primary Storefront", "primary-store", "https://shop.example.cloud",
                             "https://crm.example.cloud",
                             "eu-central", "USD", "active", "Primary public storefront managed from the CRM portal.",
                             Contact("1 Platform Plaza, Example City", "50.1109,8.6821", "ops@example.invalid",
                                     "+49-69-555-0101", true))

  const LAB_SHOP := Shop("Lab Storefront", "lab-store", "https://shop-lab.example.cloud",
                         "https://crm.example.cloud",
                         "us-east", "USD", "maintenance", "Sandbox shop used for launch rehearsals and catalog QA.",
                         Contact("77 Flight Lab Avenue, Example East", "39.0438,-77.4874", "lab@example.invalid",
                                 "+1-703-555-0102", false))

  const DEMO_SHOPS := [PRIMARY_SHOP, LAB_SHOP]

  /** Exactly one row has the slug of the shop, and it is that shop. */
  ghost predicate ShopPresent(t: Tables, shop: Shop) {
    && SlugInUse(t, shop.slug)
    && forall s :: s in t.shops && t.shops[s].slug == shop.slug ==> t.shops[s] == shop
  }

  /** Shops with other slugs than these are the same as before. */
  ghost predicate OtherShopsKept(before: Tables, after: Tables, slugs: seq<string>) {
    forall s ::
      (s in before.shops && before.shops[s].slug !in slugs) || (s in after.shops && after.shops[s].slug !in slugs) ==>
      s in before.shops && s in after.shops && before.shops[s] == after.shops[s]
  }

  /** The users after the administrator has been reconciled; None when the insert is refused. */
  function Reconciled(users: map<nat, User>, next: nat, hash: string): Option<map<nat, User>> {
    if HasAdmin(users) then
      Some(map u | u in users ::
             if users[u].email == ADMIN_EMAIL then users[u].(hash := hash, role := ADMIN_ROLE) else users[u])
    else
      var name := if NameTaken(users, ADMIN_NAME) then "crm-" + ADMIN_NAME else ADMIN_NAME;
      if NameTaken(users, name) then None
      else Some(users[next := User(name, ADMIN_EMAIL, hash, ADMIN_ROLE)])
  }

  /** An insert uses up a key, also when it is refused. */
  function NextUser(users: map<nat, User>, next: nat): nat {
    if HasAdmin(users) then next else next + 1
  }

  /** The row with the slug, or a new one, takes all the values of the shop. */
  ghost function EnsureShop(s: Store, shop: Shop): (r: Store)
    requires Sound(s)
    ensures Sound(r)
  {
    if SlugInUse(s.t, shop.slug) then
      s.(t := s.t.(shops := map i | i in s.t.shops :: if s.t.shops[i].slug == shop.slug then shop else s.t.shops[i]))
    else InsertShop(s, shop).s
  }

  ghost function ShopWithSlug(t: Tables, slug: string): (id: nat)
    requires SlugInUse(t, slug)
    ensures id in t.shops && t.shops[id].slug == slug
  {
    var id :| id in t.shops && t.shops[id].slug == slug;
    id
  }

  /** Products without a shop go to the given one. */
  function Adopt(s: Store, shop: nat): Store {
    s.(t := s.t.(products := map p | p in s.t.products ::
                   if s.t.products[p].shop.None? then s.t.products[p].(shop := Some(shop)) else s.t.products[p]))
  }

  lemma AdoptSound(s: Store, shop: nat)
    requires Sound(s) && shop in s.t.shops
    ensures Sound(Adopt(s, shop))
  {
  }

  lemma EnsuredPresent(s: Store, shop: Shop)
    requires Sound(s)
    ensures ShopPresent(EnsureShop(s, shop).t, shop)
  {
    var r := EnsureShop(s, shop);
    if SlugInUse(s.t, shop.slug) {
      assert r.t.shops[ShopWithSlug(s.t, shop.slug)].slug == shop.slug;
    } else {
      assert r.t.shops[InsertShop(s, shop).id].slug == shop.slug;
    }
  }

  ghost function BothShops(s: Store): (r: Store)
    requires Sound(s)
    ensures Sound(r)
  {
    EnsureShop(EnsureShop(s, PRIMARY_SHOP), LAB_SHOP)
  }

  lemma PrimaryKept(s: Store)
    requires Sound(s)
    ensures ShopPresent(BothShops(s).t, PRIMARY_SHOP) && ShopPresent(BothShops(s).t, LAB_SHOP)
  {
    var one := EnsureShop(s, PRIMARY_SHOP);
    EnsuredPresent(s, PRIMARY_SHOP);
    EnsuredPresent(one, LAB_SHOP);
    var id := ShopWithSlug(one.t, PRIMARY_SHOP.slug);
    assert PRIMARY_SHOP.slug[0] != LAB_SHOP.slug[0];
    assert BothShops(s).t.shops[id].slug == PRIMARY_SHOP.slug;
  }

  /** The demo shops, and the products without a shop in the first of them. */
  ghost function DemoShops(s: Store): (r: Store)
    requires Sound(s)
    ensures Sound(r)
  {
    PrimaryKept(s);
    AdoptSound(BothShops(s), ShopWithSlug(BothShops(s).t, PRIMARY_SHOP.slug));
    Adopt(BothShops(s), ShopWithSlug(BothShops(s).t, PRIMARY_SHOP.slug))
  }

  /** Everything a bootstrap works on. */
  datatype System = System(schema: Schema, users: map<nat, User>, nextUser: nat, store: Store)

  /** The constraints hold, and there are users already. */
  ghost predicate Ready(s: System) {
    && UniqueUsers(s.users) && (forall u :: u in s.users ==> u < s.nextUser) && s.users != map[]
    && Sound(s.store)
  }

  /** The system after a bootstrap: the schema is committed in any case, the rows only when the
      administrator could be reconciled. */
  ghost function Booted(s: System, hash: string): System
    requires Ready(s)
  {
    var admin := Reconciled(s.users, s.nextUser, hash);
    System(UpgradedSchema(s.schema), if admin.Some? then admin.value else s.users, NextUser(s.users, s.nextUser),
           if admin.Some? then DemoShops(s.store) else s.store)
  }

  // ---------------------------------------------------------------- the bootstrap as code

  class Bootstrapper {
    var schema: Schema
    var ddl: seq<Ddl>
    var users: map<nat, User>
    var nextUser: nat
    var db: Tables
    var ids: Ids

    ghost function Store(): Store
      reads this`db, this`ids
    {
      Database.Store(db, ids)
    }

    ghost function Now(): System
      reads this
    {
      System(schema, users, nextUser, Store())
    }

    ghost predicate UsersSound()
      reads this`users, this`nextUser
    {
      UniqueUsers(users) && forall u :: u in users ==> u < nextUser
    }

    constructor (schema: Schema, users: map<nat, User>, nextUser: nat, db: Tables, ids: Ids)
      ensures this.schema == schema && ddl == [] && this.users == users && this.nextUser == nextUser
      ensures Store() == Database.Store(db, ids)
    {
      this.schema, ddl, this.users, this.nextUser, this.db, this.ids := schema, [], users, nextUser, db, ids;
    }

    /** Tables that do not exist are created as declared. */
    method CreateAll()
      modifies this`schema, this`ddl
      ensures schema == Created(old(schema), TABLES) && ddl == old(ddl) + Creations(old(schema), TABLES)
    {
      for i := 0 to |TABLES|
        invariant schema == Created(old(schema), TABLES[..i]) && ddl == old(ddl) + Creations(old(schema), TABLES[..i])
      {
        var table := TABLES[i];
        assert TABLES[..i + 1][..i] == TABLES[..i] && table in DECLARED;
        CreatedKeeps(old(schema), TABLES[..i], table);
        if table !in schema.columns {
          schema := CreateOne(schema, table);
          ddl := ddl + [CreateTable(table)];
        }
      }
      assert TABLES[..|TABLES|] == TABLES;
    }

    /** One ALTER TABLE for each wanted column that the table lacks. */
    method AddColumns(table: string, wanted: seq<string>)
      requires table in schema.columns
      modifies this`schema, this`ddl
      ensures schema == WithColumns(old(schema), table, wanted)
      ensures ddl == old(ddl) + Additions(table, old(schema).columns[table], wanted)
    {
      var existing := schema.columns[table];
      NoColumns(schema, table);
      for i := 0 to |wanted|
        invariant table in schema.columns && schema == WithColumns(old(schema), table, wanted[..i])
        invariant ddl == old(ddl) + Additions(table, existing, wanted[..i])
      {
        assert wanted[..i + 1][..i] == wanted[..i];
        OneMoreColumn(old(schema), table, wanted[..i], wanted[i]);
        assert wanted[..i + 1] == wanted[..i] + [wanted[i]];
        if wanted[i] !in existing {
          schema := schema.(columns := schema.columns[table := schema.columns[table] + {wanted[i]}]);
          ddl := ddl + [AddColumn(table, wanted[i])];
        }
      }
      assert wanted[..|wanted|] == wanted;
    }

    method EnsureOrderColumns()
      modifies this`schema, this`ddl
      ensures schema == OrdersEnsured(old(schema))
      ensures ddl == old(ddl) + OrderStatements(old(schema))
    {
      if "orders" !in schema.columns { return; }
      AddColumns("orders", ORDER_COLUMNS);
      if !schema.refConstraint {
        schema := schema.(refConstraint := true);
        ddl := ddl + [AddRefConstraint];
      }
      if AUDIT_TABLE !in schema.columns {
        schema := CreateOne(schema, AUDIT_TABLE);
        ddl := ddl + [CreateTable(AUDIT_TABLE)];
      }
    }

    method EnsureProductColumns()
      modifies this`schema, this`ddl
      ensures schema == IfPresent(old(schema), "products", ["image_url"])
      ensures ddl == old(ddl) + Statements(old(schema), "products", ["image_url"])
    {
      if "products" !in schema.columns { return; }
      AddColumns("products", ["image_url"]);
    }

    method EnsureCatalogSchema()
      modifies this`schema, this`ddl
      ensures schema == CatalogEnsured(old(schema)) && ddl == old(ddl) + CatalogStatements(old(schema))
    {
      if "shops" !in schema.columns {
        schema := CreateOne(schema, "shops");
        ddl := ddl + [CreateTable("shops")];
      } else {
        AddColumns("shops", SHOP_COLUMNS);
      }
      if "products" !in schema.columns { return; }
      AddColumns("products", ["shop_id"]);
    }

    method UpgradeSchema()
      modifies this`schema, this`ddl
      ensures schema == UpgradedSchema(old(schema)) && ddl == old(ddl) + UpgradeStatements(old(schema))
    {
      CreateAll();
      ghost var created := schema;
      ReadyForCatalog(old(schema));
      CatalogUnaffected(created);
      EnsureOrderColumns();
      EnsureProductColumns();
      EnsureCatalogSchema();
      Regroup(old(ddl), Creations(old(schema), TABLES), OrderStatements(created),
              Statements(created, "products", ["image_url"]), CatalogStatements(created));
    }

    /** The administrator is updated by e-mail, or inserted under a name that is free. */
    method ReconcileAdmin(hash: string) returns (ok: bool)
      requires UsersSound()
      modifies this`users, this`nextUser
      ensures var spec := Reconciled(old(users), old(nextUser), hash);
              ok == spec.Some? && users == if ok then spec.value else old(users)
      ensures nextUser == NextUser(old(users), old(nextUser))
      ensures forall u :: u in users ==> u < nextUser
    {
      if HasAdmin(users) {
        users := map u | u in users ::
          if users[u].email == ADMIN_EMAIL then users[u].(hash := hash, role := ADMIN_ROLE) else users[u];
        return true;
      }
      var name := ADMIN_NAME;
      if NameTaken(users, ADMIN_NAME) {
        name := "crm-" + ADMIN_NAME;
      }
      var id := nextUser;
      nextUser := nextUser + 1;
      if NameTaken(users, name) { return false; }
      users := users[id := User(name, ADMIN_EMAIL, hash, ADMIN_ROLE)];
      ok := true;
    }

    /** One demo shop: its row is overwritten field by field, or inserted. */
    method EnsureDemoShop(shop: Shop)
      requires Sound(Store())
      modifies this`db, this`ids
      ensures Store() == EnsureShop(old(Store()), shop)
    {
      ghost var before := Store();
      if id :| id in db.shops && db.shops[id].slug == shop.slug {
        var row := db.shops[id];
        row := row.(name := shop.name, slug := shop.slug, storefrontUrl := shop.storefrontUrl);
        row := row.(crmBaseUrl := shop.crmBaseUrl, region := shop.region, currency := shop.currency);
        row := row.(status := shop.status, notes := shop.notes, contact := shop.contact);
        db := db.(shops := db.shops[id := row]);
        assert EnsureShop(before, shop).t.shops == db.shops;
      } else {
        var id := ids.shop;
        ids := ids.(shop := id + 1);
        db := db.(shops := db.shops[id := shop]);
      }
    }

    method EnsureDemoShops()
      requires Sound(Store())
      modifies this`db, this`ids
      ensures Store() == DemoShops(old(Store()))
    {
      ghost var before := Store();
      EnsureDemoShop(PRIMARY_SHOP);
      EnsureDemoShop(LAB_SHOP);
      PrimaryKept(before);
      var primary :| primary in db.shops && db.shops[primary].slug == PRIMARY_SHOP.slug;
      assert primary == ShopWithSlug(db, PRIMARY_SHOP.slug);
      db := db.(products := map p | p in db.products ::
                  if db.products[p].shop.None? then db.products[p].(shop := Some(primary)) else db.products[p]);
    }

    /** The whole run on a database that has users already. When the administrator's insert is refused
        the rows are as before; the schema statements have been committed by then. */
    method Run(hash: string) returns (ok: bool)
      requires UsersSound() && Sound(Store()) && users != map[]
      modifies this
      ensures Now() == Booted(old(Now()), hash) && ddl == old(ddl) + UpgradeStatements(old(schema))
      ensures ok <==> !NoNameLeft(old(users))
      ensures !ok ==> users == old(users) && Store() == old(Store())
    {
      ReconcileExact(users, nextUser, hash);
      UpgradeSchema();
      ok := ReconcileRows(hash);
    }

    /** The rows: one transaction. */
    method ReconcileRows(hash: string) returns (ok: bool)
      requires UsersSound() && Sound(Store())
      modifies this`users, this`nextUser, this`db, this`ids
      ensures ok == Reconciled(old(users), old(nextUser), hash).Some? && nextUser == NextUser(old(users), old(nextUser))
      ensures ok ==> users == Reconciled(old(users), old(nextUser), hash).value && Store() == DemoShops(old(Store()))
      ensures !ok ==> users == old(users) && Store() == old(Store())
    {
      ok := ReconcileAdmin(hash);
      if ok {
        EnsureDemoShops();
      }
    }
  }

  // ---------------------------------------------------------------- the schema converges

  lemma {:induction false} CreatedIs(s: Schema, tables: seq<string>)
    requires forall t :: t in tables ==> t in DECLARED
    ensures var c := Created(s, tables);
            && c.columns.Keys == s.columns.Keys + Columns(tables)
            && (forall t :: t in s.columns ==> c.columns[t] == s.columns[t])
            && (forall t :: t in tables && t !in s.columns ==> c.columns[t] == DECLARED[t])
            && c.refConstraint == (s.refConstraint || ("orders" in tables && "orders" !in s.columns))
  {
    if tables != [] {
      CreatedIs(s, tables[..|tables| - 1]);
      assert tables == tables[..|tables| - 1] + [tables[|tables| - 1]];
    }
  }

  lemma AllCreated(s: Schema)
    ensures var c := Created(s, TABLES);
            && c.columns.Keys == s.columns.Keys + {"orders", "products", "shops", AUDIT_TABLE}
            && (forall t :: t in s.columns ==> c.columns[t] == s.columns[t])
            && (forall t :: t in DECLARED && t !in s.columns ==> c.columns[t] == DECLARED[t])
            && c.refConstraint == (s.refConstraint || "orders" !in s.columns)
  {
    AllDeclared();
    CreatedIs(s, TABLES);
  }

  lemma AllDeclared()
    ensures Columns(TABLES) == {"orders", "products", "shops", AUDIT_TABLE} == DECLARED.Keys
    ensures "orders" in TABLES && forall t :: t in TABLES <==> t in DECLARED
  {
  }

  predicate Needed(s: Schema, d: Ddl) {
    match d
    case CreateTable(table) => table in DECLARED && table !in s.columns
    case AddColumn(table, column) => table in s.columns && column in Wanted(table) && column !in s.columns[table]
    case AddRefConstraint => "orders" in s.columns && !s.refConstraint
  }

  lemma DeclaredComplete(table: string)
    requires table in DECLARED
    ensures Columns(Wanted(table)) <= DECLARED[table]
  {
  }

  lemma ColumnsJoin(table: string)
    ensures Columns(Wanted("products")) == Columns(["image_url"]) + Columns(["shop_id"])
    ensures table !in DECLARED ==> Columns(Wanted(table)) == {}
  {
  }

  /** The steps after the creation only add columns, to tables that are all there. */
  lemma EnsuredColumns(c: Schema, table: string)
    requires DECLARED.Keys <= c.columns.Keys
    ensures var u := CatalogEnsured(IfPresent(OrdersEnsured(c), "products", ["image_url"]));
            && u.columns.Keys == c.columns.Keys && u.refConstraint
            && (table in c.columns ==> u.columns[table] == c.columns[table] + Columns(Wanted(table)))
  {
    assert DECLARED.Keys == {"orders", "products", "shops", AUDIT_TABLE};
    ColumnsJoin(table);
  }

  /** The upgrade drops no table and no column, and adds to each table exactly the columns it lacks; a
      table that did not exist is as declared. */
  lemma UpgradeExact(s: Schema, table: string)
    ensures table in UpgradedSchema(s).columns <==> table in s.columns || table in DECLARED
    ensures table in s.columns ==> UpgradedSchema(s).columns[table] == s.columns[table] + Columns(Wanted(table))
    ensures table in DECLARED && table !in s.columns ==> UpgradedSchema(s).columns[table] == DECLARED[table]
    ensures UpgradedSchema(s).refConstraint
  {
    AllCreated(s);
    EnsuredColumns(Created(s, TABLES), table);
    if table in DECLARED {
      DeclaredComplete(table);
    }
  }

  lemma {:induction false} CreationsOf(s: Schema, tables: seq<string>, d: Ddl)
    ensures d in Creations(s, tables) <==> d.CreateTable? && d.table in tables && d.table !in s.columns
  {
    if tables != [] {
      CreationsOf(s, tables[..|tables| - 1], d);
      assert tables == tables[..|tables| - 1] + [tables[|tables| - 1]];
    }
  }

  lemma CreationsExact(s: Schema, d: Ddl)
    ensures d in Creations(s, TABLES) <==> d.CreateTable? && d.table in DECLARED && d.table !in s.columns
  {
    CreationsOf(s, TABLES, d);
    assert d.CreateTable? ==> (d.table in TABLES <==> d.table in DECLARED);
  }

  lemma StatementsExact(s: Schema, created: Schema, table: string, declared: set<string>, wanted: seq<string>, d: Ddl)
    requires table in created.columns && Columns(wanted) <= declared
    requires created.columns[table] == if table in s.columns then s.columns[table] else declared
    ensures d in Statements(created, table, wanted)
       <==> d.AddColumn? && d.table == table && table in s.columns && d.column in wanted
            && d.column !in s.columns[table]
  {
    AdditionsAreMissing(table, created.columns[table], wanted, d);
    if table !in s.columns {
      NoAdditions(table, declared, wanted);
    }
  }

  /** A statement is issued exactly if what it adds is missing. */
  lemma IssuedIffNeeded(s: Schema, d: Ddl)
    ensures d in UpgradeStatements(s) <==> Needed(s, d)
  {
    var created := Created(s, TABLES);
    AllCreated(s);
    CreationsExact(s, d);
    DeclaredComplete("orders");
    DeclaredComplete("shops");
    DeclaredComplete("products");
    ColumnsJoin("orders");
    StatementsExact(s, created, "orders", DECLARED["orders"], ORDER_COLUMNS, d);
    StatementsExact(s, created, "shops", DECLARED["shops"], SHOP_COLUMNS, d);
    StatementsExact(s, created, "products", DECLARED["products"], ["image_url"], d);
    StatementsExact(s, created, "products", DECLARED["products"], ["shop_id"], d);
  }

  lemma NothingNeeded(s: Schema, d: Ddl)
    ensures !Needed(UpgradedSchema(s), d)
  {
    UpgradeExact(s, if d.AddRefConstraint? then "orders" else d.table);
    if d.AddColumn? && d.table in DECLARED { DeclaredComplete(d.table); }
  }

  lemma ColumnsSettled(s: Schema, table: string)
    ensures var t := UpgradedSchema(s);
            (table in UpgradedSchema(t).columns <==> table in t.columns)
            && (table in t.columns ==> UpgradedSchema(t).columns[table] == t.columns[table])
  {
    UpgradeExact(s, table);
    UpgradeExact(UpgradedSchema(s), table);
    if table in DECLARED { DeclaredComplete(table); }
  }

  /** A second upgrade issues no statement and changes nothing. */
  lemma UpgradeTwice(s: Schema)
    ensures UpgradeStatements(UpgradedSchema(s)) == [] && UpgradedSchema(UpgradedSchema(s)) == UpgradedSchema(s)
  {
    var t := UpgradedSchema(s);
    if UpgradeStatements(t) != [] {
      IssuedIffNeeded(t, UpgradeStatements(t)[0]);
      NothingNeeded(s, UpgradeStatements(t)[0]);
    }
    var u := UpgradedSchema(t);
    forall table
      ensures table in u.columns <==> table in t.columns
      ensures table in t.columns ==> u.columns[table] == t.columns[table]
    {
      ColumnsSettled(s, table);
    }
    assert u.columns == t.columns;
    UpgradeExact(t, "orders");
    UpgradeExact(s, "orders");
  }

  lemma ReadyForCatalog(s: Schema)
    ensures "products" in Created(s, TABLES).columns
    ensures "shops" in IfPresent(OrdersEnsured(Created(s, TABLES)), "products", ["image_url"]).columns
  {
    AllCreated(s);
  }

  // ---------------------------------------------------------------- users and shops converge

  /** The key of the user with the administrator's e-mail. */
  predicate AdminAt(users: map<nat, User>, id: nat) {
    id in users && users[id].email == "admin@crm-enterprise.local"
  }

  ghost predicate AdminExists(users: map<nat, User>) {
    exists id :: AdminAt(users, id)
  }

  /** There is one administrator, with that hash and role: the one there was, under its name, or a new one
      under the next key and the first of two names that is free. */
  ghost predicate AdminReady(before: map<nat, User>, next: nat, after: map<nat, User>, hash: string) {
    && AdminExists(after)
    && forall id :: AdminAt(after, id) ==>
         && after[id].hash == hash && after[id].role == "admin"
         && if AdminExists(before) then AdminAt(before, id) && after[id].username == before[id].username
            else id == next && after[id].username == if NameTaken(before, "admin") then "crm-admin" else "admin"
  }

  /** Users with other e-mails are the same. */
  ghost predicate OthersUntouched(before: map<nat, User>, after: map<nat, User>) {
    forall u :: (u in before && !AdminAt(before, u)) || (u in after && !AdminAt(after, u)) ==>
      u in before && u in after && before[u] == after[u]
  }

  /** The administrator cannot be reconciled: there is none yet, and other users hold both names. */
  ghost predicate NoNameLeft(users: map<nat, User>) {
    !AdminExists(users) && NameTaken(users, "admin") && NameTaken(users, "crm-admin")
  }

  /** The run fails exactly if there is no administrator yet and other users hold both names; else there
      is one administrator afterwards, and nobody else is touched. */
  lemma ReconcileExact(users: map<nat, User>, next: nat, hash: string)
    requires UniqueUsers(users) && forall u :: u in users ==> u < next
    ensures HasAdmin(users) <==> AdminExists(users)
    ensures Reconciled(users, next, hash).None? <==> NoNameLeft(users)
    ensures Reconciled(users, next, hash).Some? ==>
              var r := Reconciled(users, next, hash).value;
              UniqueUsers(r) && AdminReady(users, next, r, hash) && OthersUntouched(users, r)
  {
    assert "crm-" + ADMIN_NAME == "crm-admin";
    if id :| AdminAt(users, id) {
      assert HasAdmin(users);
    }
    if HasAdmin(users) {
      var admin :| admin in users && users[admin].email == ADMIN_EMAIL;
      assert AdminAt(users, admin);
    }
    if Reconciled(users, next, hash).Some? {
      ReconciledUsers(users, next, hash);
    }
  }

  lemma ReconciledUsers(users: map<nat, User>, next: nat, hash: string)
    requires UniqueUsers(users) && (forall u :: u in users ==> u < next) && Reconciled(users, next, hash).Some?
    ensures var r := Reconciled(users, next, hash).value;
            UniqueUsers(r) && AdminReady(users, next, r, hash) && OthersUntouched(users, r)
  {
    assert "crm-" + ADMIN_NAME == "crm-admin";
    var r := Reconciled(users, next, hash).value;
    if HasAdmin(users) {
      var admin :| admin in users && users[admin].email == ADMIN_EMAIL;
      assert AdminAt(users, admin) && AdminAt(r, admin);
    } else {
      assert forall id :: !AdminAt(users, id);
      assert AdminAt(r, next);
    }
  }

  /** A second run succeeds and changes nothing but the administrator's salted hash. */
  lemma ReconcileTwice(users: map<nat, User>, next: nat, later: nat, first: string, second: string)
    requires UniqueUsers(users) && (forall u :: u in users ==> u < next) && Reconciled(users, next, first).Some?
    ensures var once := Reconciled(users, next, first).value;
            var twice := Reconciled(once, later, second);
            && twice.Some? && twice.value.Keys == once.Keys
            && (forall u :: u in once ==>
                  twice.value[u] == if once[u].email == ADMIN_EMAIL then once[u].(hash := second) else once[u])
  {
    ReconcileExact(users, next, first);
  }

  /** One demo shop more or less changes no other shop and no other table. */
  lemma EnsureShopEffect(s: Store, shop: Shop)
    requires Sound(s)
    ensures var r := EnsureShop(s, shop);
            && r.t == s.t.(shops := r.t.shops) && ShopPresent(r.t, shop) && OtherShopsKept(s.t, r.t, [shop.slug])
            && (ShopPresent(s.t, shop) ==> r == s)
  {
    EnsuredPresent(s, shop);
    if ShopPresent(s.t, shop) {
      assert EnsureShop(s, shop).t.shops == s.t.shops;
    }
  }

  /** After a run both demo shops are there once with their values, every product has a shop, and all
      else is as before. */
  lemma DemoShopsExact(s: Store)
    requires Sound(s)
    ensures var r := DemoShops(s);
            && Sound(r) && ShopPresent(r.t, PRIMARY_SHOP) && ShopPresent(r.t, LAB_SHOP)
            && OtherShopsKept(s.t, r.t, [PRIMARY_SHOP.slug, LAB_SHOP.slug])
            && r.t == s.t.(shops := r.t.shops, products := r.t.products)
            && r.t.products.Keys == s.t.products.Keys
            && forall p :: p in s.t.products ==> ProductAdopted(s.t.products[p], r.t, p)
  {
    BothShopsExact(s);
    AdoptedInto(BothShops(s), ShopWithSlug(BothShops(s).t, PRIMARY_SHOP.slug));
  }

  lemma BothShopsExact(s: Store)
    requires Sound(s)
    ensures var r := BothShops(s);
            && ShopPresent(r.t, PRIMARY_SHOP) && ShopPresent(r.t, LAB_SHOP)
            && OtherShopsKept(s.t, r.t, [PRIMARY_SHOP.slug, LAB_SHOP.slug]) && r.t == s.t.(shops := r.t.shops)
  {
    EnsureShopEffect(s, PRIMARY_SHOP);
    EnsureShopEffect(EnsureShop(s, PRIMARY_SHOP), LAB_SHOP);
    PrimaryKept(s);
  }

  lemma AdoptedInto(s: Store, shop: nat)
    requires Sound(s) && shop in s.t.shops && s.t.shops[shop] == PRIMARY_SHOP
    ensures var r := Adopt(s, shop);
            && r.t == s.t.(products := r.t.products) && r.t.products.Keys == s.t.products.Keys
            && forall p :: p in s.t.products ==> ProductAdopted(s.t.products[p], r.t, p)
  {
  }

  /** A product without a shop is now in the primary shop; one with a shop stays where it was. */
  ghost predicate ProductAdopted(before: Product, t: Tables, p: nat) {
    && p in t.products
    && if before.shop.Some? then t.products[p] == before
       else exists shop ::
              shop in t.shops && t.shops[shop] == PRIMARY_SHOP && t.products[p] == before.(shop := Some(shop))
  }

  lemma BothSettled(s: Store)
    requires Sound(s) && ShopPresent(s.t, PRIMARY_SHOP) && ShopPresent(s.t, LAB_SHOP)
    ensures BothShops(s) == s
  {
    EnsureShopEffect(s, PRIMARY_SHOP);
    EnsureShopEffect(s, LAB_SHOP);
  }

  ghost predicate AllAdopted(s: Store) {
    forall p :: p in s.t.products ==> s.t.products[p].shop.Some?
  }

  lemma AdoptIdle(s: Store, shop: nat)
    requires AllAdopted(s)
    ensures Adopt(s, shop) == s
  {
    assert Adopt(s, shop).t.products == s.t.products;
  }

  /** A second run leaves shops and products as they are. */
  lemma DemoShopsTwice(s: Store)
    requires Sound(s)
    ensures DemoShops(DemoShops(s)) == DemoShops(s)
  {
    var r := DemoShops(s);
    assert AllAdopted(r);
    PrimaryKept(s);
    BothSettled(r);
    AdoptIdle(r, ShopWithSlug(r.t, PRIMARY_SHOP.slug));
  }

  // ---------------------------------------------------------------- the whole bootstrap converges

  function Rehashed(users: map<nat, User>, hash: string): map<nat, User> {
    map u | u in users :: if users[u].email == ADMIN_EMAIL then users[u].(hash := hash) else users[u]
  }

  lemma BootedReady(s: System, hash: string)
    requires Ready(s)
    ensures Ready(Booted(s, hash))
    ensures HasAdmin(Booted(s, hash).users) <==> Reconciled(s.users, s.nextUser, hash).Some?
  {
    ReconcileExact(s.users, s.nextUser, hash);
    var u :| u in s.users;
    assert u in Booted(s, hash).users;
  }

  lemma NobodyRehashed(users: map<nat, User>, hash: string)
    requires !HasAdmin(users)
    ensures Rehashed(users, hash) == users
  {
  }

  lemma RehashedTwice(users: map<nat, User>, next: nat, later: nat, first: string, second: string)
    requires UniqueUsers(users) && (forall u :: u in users ==> u < next) && Reconciled(users, next, first).Some?
    ensures var once := Reconciled(users, next, first).value;
            Reconciled(once, later, second) == Some(Rehashed(once, second))
  {
    var once := Reconciled(users, next, first).value;
    ReconcileTwice(users, next, later, first, second);
    assert Reconciled(once, later, second).value == Rehashed(once, second);
  }

  /** A second bootstrap issues no statement and changes nothing but the administrator's salted hash. If the
      first one was refused, so is the second; it changes nothing but uses up another key. */
  lemma RunTwice(s: System, first: string, second: string)
    requires Ready(s)
    ensures var once := Booted(s, first);
            && Ready(once) && UpgradeStatements(once.schema) == []
            && Booted(once, second)
               == once.(users := Rehashed(once.users, second), nextUser := NextUser(once.users, once.nextUser))
            && (HasAdmin(once.users) <==> Reconciled(s.users, s.nextUser, first).Some?)
  {
    var once := Booted(s, first);
    BootedReady(s, first);
    UpgradeTwice(s.schema);
    if HasAdmin(once.users) {
      RehashedTwice(s.users, s.nextUser, once.nextUser, first, second);
      DemoShopsTwice(s.store);
    } else {
      NobodyRehashed(once.users, second);
      ReconcileExact(s.users, s.nextUser, second);
    }
  }

  // ---------------------------------------------------------------- what a bootstrap leaves

  /** Every table and column that the application may find missing is there. */
  predicate SchemaComplete(s: Schema) {
    && {"orders", "products", "shops", "order_sync_audit"} <= s.columns.Keys && s.refConstraint
    && {"source_system", "source_order_id", "source_customer_email", "sync_status", "backlog_status", "sync_error",
        "source_payload", "correlation_id", "last_synced_at"} <= s.columns["orders"]
    && {"image_url", "shop_id"} <= s.columns["products"]
    && {"address", "coordinates", "contact_email", "contact_phone", "is_active", "slug", "storefront_url",
        "crm_base_url", "region", "currency", "status", "notes", "updated_at"} <= s.columns["shops"]
  }

  /** No table and no column is lost. */
  ghost predicate SchemaKept(a: Schema, b: Schema) {
    forall table :: table in a.columns ==> table in b.columns && a.columns[table] <= b.columns[table]
  }

  lemma TableComplete(s: Schema, table: string)
    ensures var u := UpgradedSchema(s);
            && (table in DECLARED ==> table in u.columns && Columns(Wanted(table)) <= u.columns[table])
            && (table in s.columns ==> table in u.columns && s.columns[table] <= u.columns[table])
  {
    UpgradeExact(s, table);
    if table in DECLARED {
      DeclaredComplete(table);
    }
  }

  lemma DeclaredTables()
    ensures DECLARED.Keys == {"orders", "products", "shops", "order_sync_audit"}
  {
  }

  lemma UpgradeComplete(s: Schema)
    ensures SchemaComplete(UpgradedSchema(s)) && SchemaKept(s, UpgradedSchema(s))
  {
    DeclaredTables();
    forall table
      ensures table in DECLARED ==> table in UpgradedSchema(s).columns
                                    && Columns(Wanted(table)) <= UpgradedSchema(s).columns[table]
      ensures table in s.columns ==> table in UpgradedSchema(s).columns
                                     && s.columns[table] <= UpgradedSchema(s).columns[table]
    {
      TableComplete(s, table);
    }
    UpgradeExact(s, "orders");
    CompleteWhenWanted(UpgradedSchema(s));
  }

  lemma CompleteWhenWanted(s: Schema)
    requires {"orders", "products", "shops", "order_sync_audit"} <= s.columns.Keys && s.refConstraint
    requires forall table :: table in {"orders", "products", "shops"} ==> Columns(Wanted(table)) <= s.columns[table]
    ensures SchemaComplete(s)
  {
    ListedColumns();
  }

  lemma ListedColumns()
    ensures Columns(Wanted("orders"))
         == {"source_system", "source_order_id", "source_customer_email", "sync_status", "backlog_status",
             "sync_error", "source_payload", "correlation_id", "last_synced_at"}
    ensures Columns(Wanted("products")) == {"image_url", "shop_id"}
    ensures Columns(Wanted("shops"))
         == {"address", "coordinates", "contact_email", "contact_phone", "is_active", "slug", "storefront_url",
             "crm_base_url", "region", "currency", "status", "notes", "updated_at"}
  {
  }

  /** Both demo shops are there once with their values, other shops are as before, and every product has a
      shop: its own, or the primary one. */
  ghost predicate ShopsReady(before: Tables, after: Tables) {
    && ShopPresent(after, PRIMARY_SHOP) && ShopPresent(after, LAB_SHOP)
    && OtherShopsKept(before, after, ["primary-store", "lab-store"])
    && after == before.(shops := after.shops, products := after.products)
    && after.products.Keys == before.products.Keys
    && forall p :: p in before.products ==> ProductAdopted(before.products[p], after, p)
  }

  /** What a bootstrap leaves, exactly. The schema is completed in any case. The rows are as before when no
      name is left for the administrator; otherwise there is one administrator, no other user is touched,
      and the shops and the products are ready. */
  lemma BootedExact(s: System, hash: string)
    requires Ready(s)
    ensures var r := Booted(s, hash);
            && SchemaComplete(r.schema) && SchemaKept(s.schema, r.schema)
            && (NoNameLeft(s.users) ==> r.users == s.users && r.store == s.store)
            && (!NoNameLeft(s.users) ==>
                 && UniqueUsers(r.users) && AdminReady(s.users, s.nextUser, r.users, hash)
                 && OthersUntouched(s.users, r.users)
                 && Sound(r.store) && ShopsReady(s.store.t, r.store.t))
  {
    UpgradeComplete(s.schema);
    ReconcileExact(s.users, s.nextUser, hash);
    DemoShopsExact(s.store);
    assert PRIMARY_SHOP.slug == "primary-store" && LAB_SHOP.slug == "lab-store";
  }
}
