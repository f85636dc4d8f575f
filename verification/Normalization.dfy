/** Reading one external order: the fallback chains over its alternative fields, the
    line totals, the expected total and the mismatch flag. */
module Normalization {
  import opened Wrappers

  /** A JSON value, as far as the fallback chains and the number conversions see it.
      `Other` is a non-empty list or object, with its text rendering. */
  datatype Value = Null | Num(number: real) | Str(text: string) | Other(rendering: string)

  /** Python truthiness. */
  predicate Truthy(v: Value) {
    match v
    case Null => false
    case Num(r) => r != 0.0
    case Str(s) => s != ""
    case Other(_) => true
  }

  /** Python's `a or b`. */
  function Or(a: Value, b: Value): Value {
    if Truthy(a) then a else b
  }

  function OrText(a: string, b: string): string {
    if a != "" then a else b
  }

  datatype RawItem = RawItem(quantity: Value, qty: Value, unitPrice: Value, price: Value,
                             productId: Value, sku: Value, productSku: Value,
                             productName: string, name: string)

  datatype RawOrder = RawOrder(
    id: Value, orderId: Value, number: Value,
    customerEmail: Value, nestedEmail: Value, email: Value,
    nestedName: string, customerName: string, name: string,
    status: Value, createdAt: Value, created: Value, submittedAt: Value,
    items: seq<RawItem>, lines: seq<RawItem>,
    discount: Value, discountAmount: Value, couponDiscount: Value,
    shippingCost: Value, shippingAmount: Value, shipmentCost: Value,
    total: Value, amount: Value,
    shippingAddress: string, nestedAddress: string, notes: string, comment: string)

  /** Configuration, and the library calls whose inner workings do not matter here:
      case folding, number and date parsing, rendering, the digest behind a generated SKU. */
  datatype Env = Env(
    source: string,
    lower: string -> string,
    strip: string -> string,
    nameFromEmail: string -> string,
    digest: string -> string,
    showId: nat -> string,
    showNumber: real -> string,
    parseFloat: string -> Option<real>,
    parseInt: string -> Option<int>,
    parseTime: string -> Option<int>,
    dump: RawOrder -> string)

  /** The two looks at the clock while an order is read: for a creation time it does not give, and for
      the moment of synchronisation. */
  datatype Moment = Moment(created: int, synced: int)

  /** When each order of a batch is read. */
  type Clock = nat -> Moment

  datatype NormItem = NormItem(productRef: Value, productName: string, quantity: int, unitPrice: real)

  datatype Normalized = Normalized(
    sourceOrderId: string, email: string, name: string, status: string, shippingAddress: string,
    createdAt: int, lastSynced: int, total: real, notes: string, backlogStatus: string,
    items: seq<NormItem>, payload: string)

  // ---------------------------------------------------------------- conversions

  /** `str(value or "")`. */
  function Show(e: Env, v: Value): string {
    match v
    case Null => ""
    case Num(r) => e.showNumber(r)
    case Str(s) => s
    case Other(t) => t
  }

  /** `_coerce_float` with its default of zero. */
  function CoerceFloat(e: Env, v: Value): real {
    match v
    case Null => 0.0
    case Num(r) => r
    case Str(s) => if s == "" || e.parseFloat(s).None? then 0.0 else e.parseFloat(s).value
    case Other(_) => 0.0
  }

  /** `float(value)`, which raises on text that is no number. */
  function StrictFloat(e: Env, v: Value): Option<real> {
    match v
    case Num(r) => Some(r)
    case Str(s) => e.parseFloat(s)
    case _ => None
  }

  /** Conversion of a real to an integer drops the fraction. */
  function Truncate(r: real): int {
    if r >= 0.0 then r.Floor else -((-r).Floor)
  }

  /** `int(value)`, which raises on text that is no integer. */
  function StrictInt(e: Env, v: Value): Option<int> {
    match v
    case Num(r) => Some(Truncate(r))
    case Str(s) => e.parseInt(s)
    case _ => None
  }

  /** `round(x, 2)`: to the nearest hundredth, a tie to the even one. */
  function Round2(x: real): real {
    var low := (x * 100.0).Floor;
    var rest := x * 100.0 - low as real;
    var n := if rest < 0.5 then low else if rest > 0.5 then low + 1 else if low % 2 == 0 then low else low + 1;
    n as real / 100.0
  }

  function Max(a: real, b: real): real {
    if a > b then a else b
  }

  const BACKLOG_STATUSES: set<string> := {"pending", "processing", "backlog", "queued", "awaiting_fulfillment"}

  // ---------------------------------------------------------------- what an order says

  function RawLines(raw: RawOrder): seq<RawItem> {
    if raw.items != [] then raw.items else raw.lines
  }

  function Quantity(e: Env, item: RawItem): Option<int> {
    StrictInt(e, Or(item.quantity, Or(item.qty, Num(1.0))))
  }

  function UnitPrice(e: Env, item: RawItem): real {
    CoerceFloat(e, Or(item.unitPrice, Or(item.price, Num(0.0))))
  }

  function ReadItem(e: Env, item: RawItem, quantity: int): NormItem {
    NormItem(Or(item.productId, Or(item.sku, Or(item.productSku, Str(item.name)))),
             OrText(item.productName, OrText(item.name, "Synced Item")),
             quantity, UnitPrice(e, item))
  }

  /** All lines, or nothing when some quantity is no integer. */
  function ReadItems(e: Env, items: seq<RawItem>): (r: Option<seq<NormItem>>)
    ensures r.Some? ==> |r.value| == |items|
  {
    if items == [] then Some([])
    else
      var last := items[|items| - 1];
      var rest := ReadItems(e, items[..|items| - 1]);
      if rest.None? || Quantity(e, last).None? then None
      else Some(rest.value + [ReadItem(e, last, Quantity(e, last).value)])
  }

  /** The sum of quantity times unit price. */
  function LineSum(items: seq<NormItem>): real {
    if items == [] then 0.0
    else
      var last := items[|items| - 1];
      LineSum(items[..|items| - 1]) + last.quantity as real * last.unitPrice
  }

  function Discount(e: Env, raw: RawOrder): real {
    CoerceFloat(e, Or(raw.discount, Or(raw.discountAmount, Or(raw.couponDiscount, Num(0.0)))))
  }

  /** A shipping cost that is no number stops the order from being read. */
  function Shipping(e: Env, raw: RawOrder): Option<real> {
    var strict := StrictFloat(e, Or(raw.shippingCost, Num(0.0)));
    if strict.None? then None
    else if strict.value > 0.0 then strict
    else Some(CoerceFloat(e, Or(raw.shippingAmount, Or(raw.shipmentCost, Num(0.0)))))
  }

  /** What a line sum, a discount and a shipping cost come to, before rounding. */
  function AmountDue(lineSum: real, discount: real, shipping: real): real {
    Max(lineSum - discount, 0.0) + shipping
  }

  function ExactTotal(items: seq<NormItem>, discount: real, shipping: real): real {
    AmountDue(LineSum(items), discount, shipping)
  }

  function ExpectedTotal(items: seq<NormItem>, discount: real, shipping: real): real {
    Round2(ExactTotal(items, discount, shipping))
  }

  function DeclaredTotal(e: Env, raw: RawOrder, expected: real): real {
    CoerceFloat(e, Or(raw.total, Or(raw.amount, Or(Num(expected), Num(0.0)))))
  }

  /** The e-mail, or nothing when the first candidate is no text. */
  function Email(e: Env, raw: RawOrder): Option<string> {
    match Or(raw.customerEmail, Or(raw.nestedEmail, Or(raw.email, Str(""))))
    case Str(s) => Some(e.lower(e.strip(s)))
    case _ => None
  }

  function Name(e: Env, raw: RawOrder, email: string): string {
    OrText(raw.nestedName, OrText(raw.customerName, OrText(raw.name,
      OrText(e.nameFromEmail(email), "External Customer"))))
  }

  function Timestamp(e: Env, v: Value, now: int): int {
    match v
    case Str(s) => if s != "" && e.parseTime(s).Some? then e.parseTime(s).value else now
    case _ => now
  }

  function SourceOrderId(e: Env, raw: RawOrder): string {
    Show(e, Or(raw.id, Or(raw.orderId, Or(raw.number, Str("")))))
  }

  /** The mismatch alarm: a declared total above what the lines account for. */
  predicate Overstated(items: seq<NormItem>, declared: real, expected: real) {
    items != [] && declared > expected + 0.01
  }

  function Assemble(e: Env, raw: RawOrder, now: Moment, items: seq<NormItem>, email: string,
                    declared: real): Normalized {
    var status := e.lower(Show(e, Or(raw.status, Str("pending"))));
    Normalized(
      SourceOrderId(e, raw), email, Name(e, raw, email), status,
      OrText(raw.shippingAddress, raw.nestedAddress),
      Timestamp(e, Or(raw.createdAt, Or(raw.created, raw.submittedAt)), now.created), now.synced, declared,
      OrText(raw.notes, raw.comment),
      if status in BACKLOG_STATUSES then "backlog" else "current",
      items, e.dump(raw))
  }

  /** A readable order, with the flag; nothing when one of its values cannot be converted. */
  function Normalize(e: Env, raw: RawOrder, now: Moment): Option<(Normalized, bool)> {
    var email := Email(e, raw);
    var items := ReadItems(e, RawLines(raw));
    var shipping := Shipping(e, raw);
    if email.None? || items.None? || shipping.None? then None
    else
      var expected := ExpectedTotal(items.value, Discount(e, raw), shipping.value);
      var declared := DeclaredTotal(e, raw, expected);
      Some((Assemble(e, raw, now, items.value, email.value, declared),
            Overstated(items.value, declared, expected)))
  }

  lemma {:induction false} ReadItemsStops(e: Env, items: seq<RawItem>, k: nat)
    requires k < |items| && Quantity(e, items[k]).None?
    ensures ReadItems(e, items).None?
  {
    if k < |items| - 1 {
      ReadItemsStops(e, items[..|items| - 1], k);
    }
  }

  /** The line loop: reads every line and accumulates what they cost. */
  method ReadLines(e: Env, items: seq<RawItem>) returns (r: Option<seq<NormItem>>, computedTotal: real)
    ensures r == ReadItems(e, items)
    ensures r.Some? ==> computedTotal == LineSum(r.value)
  {
    var lines: seq<NormItem> := [];
    computedTotal := 0.0;
    var i := 0;
    while i < |items|
      invariant 0 <= i <= |items|
      invariant ReadItems(e, items[..i]) == Some(lines)
      invariant computedTotal == LineSum(lines)
    {
      var quantity := Quantity(e, items[i]);
      if quantity.None? {
        ReadItemsStops(e, items, i);
        return None, 0.0;
      }
      var line := ReadItem(e, items[i], quantity.value);
      computedTotal := computedTotal + quantity.value as real * line.unitPrice;
      assert items[..i + 1][..i] == items[..i];
      assert (lines + [line])[..|lines|] == lines;
      lines := lines + [line];
      i := i + 1;
    }
    assert items[..i] == items;
    r := Some(lines);
  }

  method NormalizeExternalOrder(e: Env, raw: RawOrder, now: Moment) returns (r: Option<(Normalized, bool)>)
    ensures r == Normalize(e, raw, now)
  {
    var email := Email(e, raw);
    if email.None? { return None; }
    var lines, computedTotal := ReadLines(e, RawLines(raw));
    if lines.None? { return None; }
    var shipping := Shipping(e, raw);
    if shipping.None? { return None; }
    var expected := Round2(AmountDue(computedTotal, Discount(e, raw), shipping.value));
    var declared := DeclaredTotal(e, raw, expected);
    var flagged := Overstated(lines.value, declared, expected);
    r := Some((Assemble(e, raw, now, lines.value, email.value, declared), flagged));
  }

  // ---------------------------------------------------------------- alternative fields

  /** The first of several values that says anything; if none does, the last. */
  function FirstOf(values: seq<Value>): Value
    requires values != []
  {
    if |values| == 1 || Truthy(values[0]) then values[0] else FirstOf(values[1..])
  }

  lemma {:induction false} FirstOfIs(values: seq<Value>, k: nat)
    requires k < |values| && (Truthy(values[k]) || k == |values| - 1)
    requires forall j :: 0 <= j < k ==> !Truthy(values[j])
    ensures FirstOf(values) == values[k]
  {
    if k > 0 {
      FirstOfIs(values[1..], k - 1);
    }
  }

  /** A chain of `or` takes the first alternative that says anything. */
  lemma TwoAlternatives(a: Value, b: Value)
    ensures FirstOf([a, b]) == Or(a, b)
  {
    assert [a, b][1..] == [b];
  }

  lemma ThreeAlternatives(a: Value, b: Value, c: Value)
    ensures FirstOf([a, b, c]) == Or(a, Or(b, c))
  {
    assert [a, b, c][1..] == [b, c];
    TwoAlternatives(b, c);
  }

  lemma FourAlternatives(a: Value, b: Value, c: Value, d: Value)
    ensures FirstOf([a, b, c, d]) == Or(a, Or(b, Or(c, d)))
  {
    assert [a, b, c, d][1..] == [b, c, d];
    ThreeAlternatives(b, c, d);
  }

  /** Where the fields of a readable order come from. */
  lemma FieldsRead(e: Env, raw: RawOrder, now: Moment)
    requires Normalize(e, raw, now).Some?
    ensures var n := Normalize(e, raw, now).value.0;
            && n.sourceOrderId == Show(e, FirstOf([raw.id, raw.orderId, raw.number, Str("")]))
            && n.status == e.lower(Show(e, FirstOf([raw.status, Str("pending")])))
            && (n.backlogStatus == "backlog" <==>
                  n.status in {"pending", "processing", "backlog", "queued", "awaiting_fulfillment"})
            && (n.backlogStatus == "backlog" || n.backlogStatus == "current")
            && Str(n.shippingAddress) == FirstOf([Str(raw.shippingAddress), Str(raw.nestedAddress)])
            && Str(n.notes) == FirstOf([Str(raw.notes), Str(raw.comment)])
            && n.lastSynced == now.synced && n.payload == e.dump(raw)
  {
    FourAlternatives(raw.id, raw.orderId, raw.number, Str(""));
    TwoAlternatives(raw.status, Str("pending"));
    TwoAlternatives(Str(raw.shippingAddress), Str(raw.nestedAddress));
    TwoAlternatives(Str(raw.notes), Str(raw.comment));
  }

  /** Who an order is for: the e-mail must be text, and the name is never empty. */
  lemma BuyerRead(e: Env, raw: RawOrder, now: Moment)
    requires Normalize(e, raw, now).Some?
    ensures var n := Normalize(e, raw, now).value.0;
            var address := FirstOf([raw.customerEmail, raw.nestedEmail, raw.email, Str("")]);
            && address.Str? && n.email == e.lower(e.strip(address.text))
            && Str(n.name) == FirstOf([Str(raw.nestedName), Str(raw.customerName), Str(raw.name),
                                       Str(e.nameFromEmail(n.email)), Str("External Customer")])
            && n.name != ""
  {
    FourAlternatives(raw.customerEmail, raw.nestedEmail, raw.email, Str(""));
    var n := Normalize(e, raw, now).value.0;
    var names := [Str(raw.nestedName), Str(raw.customerName), Str(raw.name), Str(e.nameFromEmail(n.email)),
                  Str("External Customer")];
    assert names[1..] == [names[1], names[2], names[3], names[4]];
    FourAlternatives(names[1], names[2], names[3], names[4]);
  }

  /** When an order was created: the first of three fields, if it is text that parses, else the moment of
      reading. */
  lemma CreationRead(e: Env, raw: RawOrder, now: Moment)
    requires Normalize(e, raw, now).Some?
    ensures var n := Normalize(e, raw, now).value.0;
            var given := FirstOf([raw.createdAt, raw.created, raw.submittedAt]);
            n.createdAt == if given.Str? && given.text != "" && e.parseTime(given.text).Some?
                           then e.parseTime(given.text).value else now.created
  {
    ThreeAlternatives(raw.createdAt, raw.created, raw.submittedAt);
  }

  /** What is taken off, what shipping costs, and the total that an order declares. A shipping cost of zero
      or less gives way to the other two fields, and a declared total that is no number counts as zero. */
  lemma MoneyRead(e: Env, raw: RawOrder, now: Moment)
    requires Normalize(e, raw, now).Some?
    ensures Discount(e, raw)
         == CoerceFloat(e, FirstOf([raw.discount, raw.discountAmount, raw.couponDiscount, Num(0.0)]))
    ensures var cost := StrictFloat(e, FirstOf([raw.shippingCost, Num(0.0)]));
            && cost.Some?
            && Shipping(e, raw) == if cost.value > 0.0 then cost
                 else Some(CoerceFloat(e, FirstOf([raw.shippingAmount, raw.shipmentCost, Num(0.0)])))
    ensures Truthy(raw.total) || Truthy(raw.amount) ==>
              Normalize(e, raw, now).value.0.total == CoerceFloat(e, FirstOf([raw.total, raw.amount]))
  {
    FourAlternatives(raw.discount, raw.discountAmount, raw.couponDiscount, Num(0.0));
    TwoAlternatives(raw.shippingCost, Num(0.0));
    ThreeAlternatives(raw.shippingAmount, raw.shipmentCost, Num(0.0));
    TwoAlternatives(raw.total, raw.amount);
  }

  /** The lines are those under the first of the two names that has any. */
  lemma LinesRead(e: Env, raw: RawOrder, now: Moment, k: nat)
    requires Normalize(e, raw, now).Some?
    ensures var n := Normalize(e, raw, now).value.0;
            var lines := if raw.items != [] then raw.items else raw.lines;
            |n.items| == |lines| && (k < |lines| ==> ReadFrom(e, lines[k], n.items[k]))
  {
    if k < |RawLines(raw)| {
      LinesPreserved(e, RawLines(raw), k);
    }
  }

  /** Conversion to an integer drops the fraction; the lenient conversion to a number is the strict one, with
      zero for what that refuses. */
  lemma Conversions(e: Env, r: real, text: string, v: Value)
    ensures StrictInt(e, Num(r)).Some?
    ensures var n := StrictInt(e, Num(r)).value as real;
            if r >= 0.0 then n <= r < n + 1.0 else n - 1.0 < r <= n
    ensures StrictFloat(e, Num(r)) == Some(r)
    ensures Show(e, Str(text)) == text && Show(e, Num(r)) == e.showNumber(r) && Show(e, Null) == ""
    ensures CoerceFloat(e, v)
         == if v != Str("") && StrictFloat(e, v).Some? then StrictFloat(e, v).value else 0.0
  {
  }

  /** Every line has a quantity that converts. */
  predicate QuantitiesConvert(e: Env, lines: seq<RawItem>) {
    forall k :: 0 <= k < |lines| ==> StrictInt(e, FirstOf([lines[k].quantity, lines[k].qty, Num(1.0)])).Some?
  }

  lemma {:induction false} LinesReadable(e: Env, lines: seq<RawItem>)
    ensures ReadItems(e, lines).Some? <==> QuantitiesConvert(e, lines)
  {
    if lines != [] {
      var last := |lines| - 1;
      LinesReadable(e, lines[..last]);
      ThreeAlternatives(lines[last].quantity, lines[last].qty, Num(1.0));
      assert forall k :: 0 <= k < last ==> lines[..last][k] == lines[k];
    }
  }

  /** Which orders can be read: those with text for an e-mail, a shipping cost that is a number, and lines
      with quantities that are. */
  lemma ReadableExact(e: Env, raw: RawOrder, now: Moment)
    ensures Normalize(e, raw, now).Some? <==>
              && FirstOf([raw.customerEmail, raw.nestedEmail, raw.email, Str("")]).Str?
              && StrictFloat(e, FirstOf([raw.shippingCost, Num(0.0)])).Some?
              && QuantitiesConvert(e, if raw.items != [] then raw.items else raw.lines)
  {
    FourAlternatives(raw.customerEmail, raw.nestedEmail, raw.email, Str(""));
    TwoAlternatives(raw.shippingCost, Num(0.0));
    LinesReadable(e, RawLines(raw));
  }

  // ---------------------------------------------------------------- money

  lemma RoundingError(x: real)
    ensures -0.005 <= Round2(x) - x <= 0.005
  {
    var _ := RoundedToNearest(x);
  }

  /** Rounding gives a whole number of cents, none of them nearer, and of two that are as near the even one. */
  lemma RoundedToNearest(x: real) returns (cents: int)
    ensures Round2(x) == cents as real / 100.0
    ensures -0.5 <= x * 100.0 - cents as real <= 0.5
    ensures x * 100.0 - cents as real in {-0.5, 0.5} ==> cents % 2 == 0
  {
    var low := (x * 100.0).Floor;
    assert low as real <= x * 100.0 < low as real + 1.0;
    cents := if x * 100.0 - low as real < 0.5 then low
             else if x * 100.0 - low as real > 0.5 then low + 1
             else if low % 2 == 0 then low else low + 1;
  }

  /** One line comes to its quantity times its price, and two lists of lines to both together. */
  lemma {:induction false} LineSumAdds(a: seq<NormItem>, item: NormItem, b: seq<NormItem>)
    ensures LineSum([item]) == item.quantity as real * item.unitPrice
    ensures LineSum(a + b) == LineSum(a) + LineSum(b)
  {
    assert [item][..0] == [] && LineSum([]) == 0.0;
    if b == [] {
      assert a + b == a;
    } else {
      LineSumAdds(a, item, b[..|b| - 1]);
      assert (a + b)[..|a + b| - 1] == a + b[..|b| - 1];
    }
  }

  /** An order that declares no total is read at what its lines less the discount, if that is anything,
      and the shipping come to, to within half a cent, and never raises the alarm. */
  lemma UndeclaredTotal(e: Env, raw: RawOrder, now: Moment)
    requires !Truthy(raw.total) && !Truthy(raw.amount)
    requires Normalize(e, raw, now).Some?
    ensures var (n, flagged) := Normalize(e, raw, now).value;
            var net := LineSum(n.items) - Discount(e, raw);
            var exact := (if net > 0.0 then net else 0.0) + Shipping(e, raw).value;
            -0.005 <= n.total - exact <= 0.005 && !flagged
  {
    var items := ReadItems(e, RawLines(raw)).value;
    RoundingError(ExactTotal(items, Discount(e, raw), Shipping(e, raw).value));
  }

  /** The alarm is exact up to rounding: it stays silent unless the stored total exceeds the
      exact amount by more than half a cent, and always sounds from one and a half cents on. */
  lemma AlarmIsExact(e: Env, raw: RawOrder, now: Moment)
    requires Normalize(e, raw, now).Some?
    ensures var (n, flagged) := Normalize(e, raw, now).value;
            var net := LineSum(n.items) - Discount(e, raw);
            var excess := n.total - ((if net > 0.0 then net else 0.0) + Shipping(e, raw).value);
            && (flagged ==> n.items != [] && excess > 0.005)
            && (n.items != [] && excess > 0.015 ==> flagged)
  {
    var items := ReadItems(e, RawLines(raw)).value;
    RoundingError(ExactTotal(items, Discount(e, raw), Shipping(e, raw).value));
  }

  /** A line read from a raw one: each value from the first of its alternative fields that says anything. */
  predicate ReadFrom(e: Env, item: RawItem, line: NormItem) {
    && StrictInt(e, FirstOf([item.quantity, item.qty, Num(1.0)])) == Some(line.quantity)
    && line.unitPrice == CoerceFloat(e, FirstOf([item.unitPrice, item.price, Num(0.0)]))
    && line.productRef == FirstOf([item.productId, item.sku, item.productSku, Str(item.name)])
    && Str(line.productName) == FirstOf([Str(item.productName), Str(item.name), Str("Synced Item")])
  }

  /** Reading keeps the lines: one normalised line per raw line, in order, each with the quantity, price,
      product and name that its own raw line gives. */
  lemma {:induction false} LinesPreserved(e: Env, items: seq<RawItem>, k: nat)
    requires k < |items| && ReadItems(e, items).Some?
    ensures ReadFrom(e, items[k], ReadItems(e, items).value[k])
  {
    if k < |items| - 1 {
      LinesPreserved(e, items[..|items| - 1], k);
    } else {
      var item := items[k];
      ThreeAlternatives(item.quantity, item.qty, Num(1.0));
      ThreeAlternatives(item.unitPrice, item.price, Num(0.0));
      FourAlternatives(item.productId, item.sku, item.productSku, Str(item.name));
      ThreeAlternatives(Str(item.productName), Str(item.name), Str("Synced Item"));
    }
  }

  // ---------------------------------------------------------------- a batch

  /** The orders of a batch in readable form; nothing when one of them cannot be read. */
  function NormalizeAll(e: Env, raws: seq<RawOrder>, clock: Clock): (r: Option<seq<Normalized>>)
    ensures r.Some? ==> |r.value| == |raws|
  {
    if raws == [] then Some([])
    else
      var rest := NormalizeAll(e, raws[..|raws| - 1], clock);
      var last := Normalize(e, raws[|raws| - 1], clock(|raws| - 1));
      if rest.None? || last.None? then None else Some(rest.value + [last.value.0])
  }

  /** The order is read as `n`. */
  predicate ReadsAs(e: Env, raw: RawOrder, now: Moment, n: Normalized) {
    Normalize(e, raw, now).Some? && n == Normalize(e, raw, now).value.0
  }

  /** Every order of the batch is read, in its place and at its own moment. */
  predicate AllRead(e: Env, raws: seq<RawOrder>, clock: Clock, ns: seq<Normalized>) {
    |ns| == |raws| && forall i :: 0 <= i < |raws| ==> ReadsAs(e, raws[i], clock(i), ns[i])
  }

  lemma AllReadStep(e: Env, raws: seq<RawOrder>, clock: Clock, front: seq<Normalized>, n: Normalized)
    requires raws != [] && AllRead(e, raws[..|raws| - 1], clock, front)
    requires ReadsAs(e, raws[|raws| - 1], clock(|raws| - 1), n)
    ensures AllRead(e, raws, clock, front + [n])
  {
    forall i | 0 <= i < |raws|
      ensures ReadsAs(e, raws[i], clock(i), (front + [n])[i])
    {
      if i < |raws| - 1 {
        assert ReadsAs(e, raws[..|raws| - 1][i], clock(i), front[i]);
      }
    }
  }

  lemma LastRead(e: Env, raws: seq<RawOrder>, clock: Clock)
    requires raws != []
    ensures var front, last := NormalizeAll(e, raws[..|raws| - 1], clock), |raws| - 1;
            if front.Some? && Normalize(e, raws[last], clock(last)).Some?
            then NormalizeAll(e, raws, clock) == Some(front.value + [Normalize(e, raws[last], clock(last)).value.0])
            else NormalizeAll(e, raws, clock).None?
  {
  }

  /** A batch that is readable is read order by order; otherwise one of its orders cannot be read. */
  lemma {:induction false} NormalizeAllExact(e: Env, raws: seq<RawOrder>, clock: Clock) returns (k: nat)
    ensures NormalizeAll(e, raws, clock).Some? ==> AllRead(e, raws, clock, NormalizeAll(e, raws, clock).value)
    ensures NormalizeAll(e, raws, clock).None? ==> k < |raws| && Normalize(e, raws[k], clock(k)).None?
  {
    k := 0;
    if raws != [] {
      var last := |raws| - 1;
      k := NormalizeAllExact(e, raws[..last], clock);
      LastRead(e, raws, clock);
      if NormalizeAll(e, raws, clock).Some? {
        var front, n := NormalizeAll(e, raws[..last], clock).value, Normalize(e, raws[last], clock(last)).value.0;
        AllReadStep(e, raws, clock, front, n);
      } else if NormalizeAll(e, raws[..last], clock).Some? {
        k := last;
      }
    }
  }

  lemma {:induction false} NormalizeAllStops(e: Env, raws: seq<RawOrder>, clock: Clock, k: nat)
    requires k < |raws| && Normalize(e, raws[k], clock(k)).None?
    ensures NormalizeAll(e, raws, clock).None?
  {
    if k < |raws| - 1 {
      NormalizeAllStops(e, raws[..|raws| - 1], clock, k);
    }
  }

  lemma NormalizeAllStep(e: Env, raws: seq<RawOrder>, clock: Clock, i: nat)
    requires i < |raws| && NormalizeAll(e, raws[..i], clock).Some? && Normalize(e, raws[i], clock(i)).Some?
    ensures NormalizeAll(e, raws[..i + 1], clock) ==
            Some(NormalizeAll(e, raws[..i], clock).value + [Normalize(e, raws[i], clock(i)).value.0])
  {
    assert raws[..i + 1][..i] == raws[..i];
  }

  /** Two readings of the same external orders differ at most in the moments they were read. */
  predicate SameReading(a: Normalized, b: Normalized) {
    a.(createdAt := 0, lastSynced := 0) == b.(createdAt := 0, lastSynced := 0)
  }

  predicate SameReadings(a: seq<Normalized>, b: seq<Normalized>) {
    |a| == |b| && forall i :: 0 <= i < |a| ==> SameReading(a[i], b[i])
  }

  /** Reading the same external orders at other moments gives the same orders up to those moments,
      and fails at the same ones. */
  lemma {:induction false} ReadTwice(e: Env, raws: seq<RawOrder>, t1: Clock, t2: Clock)
    ensures NormalizeAll(e, raws, t1).Some? <==> NormalizeAll(e, raws, t2).Some?
    ensures NormalizeAll(e, raws, t1).Some? ==>
              SameReadings(NormalizeAll(e, raws, t1).value, NormalizeAll(e, raws, t2).value)
  {
    if raws == [] {
    } else {
      ReadTwice(e, raws[..|raws| - 1], t1, t2);
    }
  }
}
