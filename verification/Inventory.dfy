// Applying confirmed invoices to stock (apps/inventory/services.py, repositories.py).  A SKU is
// identified by its unique code, a stock level by the code of its SKU.
module Inventory {
  import opened Wrappers
  import opened Json

  datatype Stock = Stock(onHand: int, reserved: int)

  datatype Sku = Sku(product: nat, stock: Option<Stock>)

  datatype Product = Product(name: string, supplier: Option<int>, unitPrice: Option<real>)

  datatype Tables = Tables(skus: map<string, Sku>, products: seq<Product>)

  // What applying one line reports: the SKU it went to, the line's own labels, the quantities.
  datatype Receipt = Receipt(sku: string, itemName: Json, skuCode: Json, added: int, onHand: int)

  datatype Fault = Invalid | Crash | NotFound | InsufficientStock

  // The values read from one confirmed line before anything is written.
  datatype Reading = Reading(code: string, name: string, supplier: Option<int>, quantity: int, price: Option<real>)

  // ----- Reading a line -----

  // int(): truncates a number, parses a text, refuses everything else.
  function ToInt(env: Env, v: Json): Option<int> {
    match v
    case JNum(n) => Some(if n >= 0.0 then n.Floor else -((-n).Floor))
    case JBool(b) => Some(if b then 1 else 0)
    case JStr(s) => env.parseInt(s)
    case _ => None
  }

  // `_parse_invoice_quantity`
  function ReadQuantity(env: Env, data: Fields): Result<int, Fault> {
    var raw := if "quantity_received" in data then data["quantity_received"] else Get(data, "quantity");
    var quantity := ToInt(env, raw);
    if quantity.None? then Err(Crash)
    else if quantity.value < 1 then Err(Invalid)
    else Ok(quantity.value)
  }

  // `_parse_invoice_price`
  function ReadPrice(env: Env, raw: Json): Result<Option<real>, Fault> {
    if raw == JNull || raw == JStr("") then Ok(None)
    else
      var value := env.parseDecimal(Strip(env, Without(Without(Text(env, raw), '$'), ',')));
      if value.None? || value.value < 0.0 then Err(Invalid)
      else
        var rounded := env.roundPrice(value.value);
        if rounded.None? then Err(Crash) else Ok(Some(rounded.value))
  }

  function Code(env: Env, v: Json): string {
    env.upper(Strip(env, Text(env, v)))
  }

  // A falsy supplier name stands for no name.
  function SupplierName(env: Env, v: Json): string {
    if Truthy(v) then Strip(env, Text(env, v)) else ""
  }

  function Read(env: Env, data: Fields): Result<Reading, Fault> {
    if "sku_code" !in data || "product_name" !in data then Err(Crash)
    else
      var supplierName := SupplierName(env, Get(data, "supplier_name"));
      var quantity := ReadQuantity(env, data);
      if quantity.Err? then Err(quantity.error)
      else
        var price := ReadPrice(env, Get(data, "unit_price"));
        if price.Err? then Err(price.error)
        else Ok(Reading(Code(env, data["sku_code"]), Strip(env, Text(env, data["product_name"])),
                        if supplierName == "" then None else env.supplierNamed(supplierName), quantity.value, price.value))
  }

  // ----- Applying a line -----

  function Restocked(stock: Option<Stock>, quantity: int): Stock {
    if stock.Some? then stock.value.(onHand := stock.value.onHand + quantity) else Stock(quantity, 0)
  }

  function Repriced(p: Product, r: Reading): Product {
    p.(unitPrice := if r.price.Some? then r.price else p.unitPrice,
       supplier := if r.supplier.Some? then r.supplier else p.supplier)
  }

  function Applied(t: Tables, r: Reading): Tables {
    if r.code in t.skus then
      var sku := t.skus[r.code];
      Tables(t.skus[r.code := sku.(stock := Some(Restocked(sku.stock, r.quantity)))],
             if sku.product < |t.products| then t.products[sku.product := Repriced(t.products[sku.product], r)] else t.products)
    else
      Tables(t.skus[r.code := Sku(|t.products|, Some(Stock(r.quantity, 0)))],
             t.products + [Product(r.name, r.supplier, r.price)])
  }

  function ReceiptFor(t: Tables, r: Reading, itemName: Json, skuCode: Json): Receipt {
    Receipt(r.code, itemName, skuCode, r.quantity, OnHand(t, r.code) + r.quantity)
  }

  // On-hand quantity of a code: none for an unknown code or a SKU without a stock level.
  function OnHand(t: Tables, code: string): int {
    if code in t.skus && t.skus[code].stock.Some? then t.skus[code].stock.value.onHand else 0
  }

  function Reserved(t: Tables, code: string): int {
    if code in t.skus && t.skus[code].stock.Some? then t.skus[code].stock.value.reserved else 0
  }

  // `apply_confirmed_invoice`
  function ApplyInvoice(env: Env, t: Tables, data: Fields): Result<(Tables, Receipt), Fault> {
    var r := Read(env, data);
    if r.Err? then Err(r.error)
    else Ok((Applied(t, r.value), ReceiptFor(t, r.value, Get(data, "product_name"), Get(data, "sku_code"))))
  }

  // ----- Applying a batch -----

  // The dictionary a batch hands to the single-line call.
  function Single(header: Fields, env: Env, line: Fields): Fields {
    map["product_name" := Get(line, "item_name"),
        "sku_code" := Get(line, "sku_code"),
        "quantity_received" := Get(line, "quantity"),
        "unit_price" := Get(line, "unit_price"),
        "supplier_name" := JStr(SupplierName(env, Get(header, "supplier_name")))]
  }

  // One line of a batch: its labels and what reading it gives.
  datatype Entry = Entry(itemName: Json, skuCode: Json, reading: Result<Reading, Fault>)

  function EntryOf(env: Env, header: Fields, line: Fields): Entry {
    Entry(Get(line, "item_name"), Get(line, "sku_code"), Read(env, Single(header, env, line)))
  }

  function Entries(env: Env, header: Fields, lines: seq<Fields>): seq<Entry> {
    seq(|lines|, i requires 0 <= i < |lines| => EntryOf(env, header, lines[i]))
  }

  datatype Batch = Batch(tables: Tables, lines: seq<Receipt>, failed: seq<Json>)

  function EntryReceipt(t: Tables, e: Entry): Receipt
    requires e.reading.Ok?
  {
    ReceiptFor(t, e.reading.value, e.itemName, e.skuCode)
  }

  // One more line.
  function Advance(b: Batch, e: Entry): Result<Batch, Fault> {
    match e.reading
    case Err(Invalid) => Ok(b.(failed := b.failed + [e.skuCode]))
    case Err(fault) => Err(fault)
    case Ok(r) => Ok(b.(tables := Applied(b.tables, r), lines := b.lines + [EntryReceipt(b.tables, e)]))
  }

  // The state after the first n lines; a fault other than a failed validation aborts.
  function Run(t: Tables, entries: seq<Entry>, n: nat): Result<Batch, Fault>
    requires n <= |entries|
  {
    if n == 0 then Ok(Batch(t, [], []))
    else
      var before := Run(t, entries, n - 1);
      if before.Err? then before else Advance(before.value, entries[n - 1])
  }

  function RunAll(t: Tables, entries: seq<Entry>): Result<Batch, Fault> {
    Run(t, entries, |entries|)
  }

  // `apply_confirmed_invoice_lines`
  function ApplyBatch(t: Tables, entries: seq<Entry>): Result<Batch, Fault> {
    var b := RunAll(t, entries);
    if b.Ok? && b.value.lines == [] && b.value.failed != [] then Err(Invalid) else b
  }

  // `InventoryRepository.adjust_stock`
  function Adjust(t: Tables, code: string, delta: int): Result<Tables, Fault> {
    if code !in t.skus || t.skus[code].stock.None? then Err(NotFound)
    else
      var sku := t.skus[code];
      var onHand := sku.stock.value.onHand + delta;
      if onHand < sku.stock.value.reserved then Err(InsufficientStock)
      else Ok(t.(skus := t.skus[code := sku.(stock := Some(sku.stock.value.(onHand := onHand)))]))
  }

  class InventoryService {
    var skus: map<string, Sku>
    var products: seq<Product>

    function State(): Tables
      reads this
    {
      Tables(skus, products)
    }

    constructor ()
      ensures State() == Tables(map[], [])
    {
      skus, products := map[], [];
    }

    method ApplyConfirmedInvoice(env: Env, data: Fields) returns (r: Result<Receipt, Fault>)
      modifies this
      ensures match ApplyInvoice(env, old(State()), data)
              case Ok((after, receipt)) => r == Ok(receipt) && State() == after
              case Err(e) => r == Err(e) && State() == old(State())
    {
      if "sku_code" !in data || "product_name" !in data {
        return Err(Crash);
      }
      var code := Code(env, data["sku_code"]);
      var name := Strip(env, Text(env, data["product_name"]));
      var supplierName := SupplierName(env, Get(data, "supplier_name"));
      var quantity := ReadQuantity(env, data);
      if quantity.Err? {
        return Err(quantity.error);
      }
      var price := ReadPrice(env, Get(data, "unit_price"));
      if price.Err? {
        return Err(price.error);
      }
      var supplier := if supplierName == "" then None else env.supplierNamed(supplierName);
      var onHand := StoreLine(code, name, supplier, quantity.value, price.value);
      r := Ok(Receipt(code, Get(data, "product_name"), Get(data, "sku_code"), quantity.value, onHand));
    }

    // The writes of the call: the stock level of the code, and its product.
    method StoreLine(code: string, name: string, supplier: Option<int>, quantity: int, price: Option<real>) returns (onHand: int)
      modifies this
      ensures State() == Applied(old(State()), Reading(code, name, supplier, quantity, price))
      ensures onHand == OnHand(old(State()), code) + quantity
    {
      if code in skus {
        var sku := skus[code];
        var stock: Stock;
        if sku.stock.Some? {
          stock := sku.stock.value.(onHand := sku.stock.value.onHand + quantity);
        } else {
          stock := Stock(quantity, 0);
        }
        skus := skus[code := sku.(stock := Some(stock))];
        onHand := stock.onHand;
        if sku.product < |products| {
          var product := products[sku.product];
          if price.Some? {
            product := product.(unitPrice := price);
          }
          if supplier.Some? {
            product := product.(supplier := supplier);
          }
          products := products[sku.product := product];
        }
      } else {
        products := products + [Product(name, supplier, price)];
        skus := skus[code := Sku(|products| - 1, Some(Stock(quantity, 0)))];
        onHand := quantity;
      }
    }

    // The transaction: when the call raises, the tables are put back.
    method ApplyConfirmedInvoiceLines(env: Env, header: Fields, lines: seq<Fields>)
      returns (r: Result<(seq<Receipt>, seq<Json>), Fault>)
      modifies this
      ensures match ApplyBatch(old(State()), Entries(env, header, lines))
              case Ok(b) => r == Ok((b.lines, b.failed)) && State() == b.tables
              case Err(e) => r == Err(e) && State() == old(State())
    {
      var skus0, products0 := skus, products;
      var fault, applied, failed := ApplyLines(env, header, lines);
      if fault.None? && applied == [] && failed != [] {
        fault := Some(Invalid);
      }
      if fault.Some? {
        skus, products := skus0, products0;
        return Err(fault.value);
      }
      r := Ok((applied, failed));
    }

    // Its loop, up to the first fault other than a failed validation.
    method ApplyLines(env: Env, header: Fields, lines: seq<Fields>)
      returns (fault: Option<Fault>, applied: seq<Receipt>, failed: seq<Json>)
      modifies this
      ensures match RunAll(old(State()), Entries(env, header, lines))
              case Ok(b) => fault == None && b == Batch(State(), applied, failed)
              case Err(e) => fault == Some(e)
    {
      fault, applied, failed := None, [], [];
      ghost var before, entries := State(), Entries(env, header, lines);
      for i := 0 to |lines|
        invariant fault == None && Reached(before, entries, i, Batch(State(), applied, failed))
      {
        ReachedNext(before, entries, i, Batch(State(), applied, failed));
        fault, applied, failed := ApplyNext(env, header, lines[i], applied, failed);
        if fault.Some? {
          return;
        }
      }
    }

    // The body of that loop.
    method ApplyNext(env: Env, header: Fields, line: Fields, applied: seq<Receipt>, failed: seq<Json>)
      returns (fault: Option<Fault>, applied': seq<Receipt>, failed': seq<Json>)
      modifies this
      ensures match Advance(Batch(old(State()), applied, failed), EntryOf(env, header, line))
              case Ok(b) => fault == None && b == Batch(State(), applied', failed')
              case Err(e) => fault == Some(e)
    {
      fault, applied', failed' := None, applied, failed;
      var result := ApplyLine(env, header, line);
      if result.Ok? {
        applied' := applied' + [result.value];
      } else if result.error == Invalid {
        failed' := failed' + [Get(line, "sku_code")];
      } else {
        fault := Some(result.error);
      }
    }

    // One line of a batch, reported under its own labels.
    method ApplyLine(env: Env, header: Fields, line: Fields) returns (r: Result<Receipt, Fault>)
      modifies this
      ensures var e := EntryOf(env, header, line);
              if e.reading.Err? then r == Err(e.reading.error) && State() == old(State())
              else r == Ok(EntryReceipt(old(State()), e)) && State() == Applied(old(State()), e.reading.value)
    {
      var result := ApplyConfirmedInvoice(env, Single(header, env, line));
      if result.Err? {
        return result;
      }
      r := Ok(result.value.(itemName := Get(line, "item_name"), skuCode := Get(line, "sku_code")));
    }

    method AdjustStock(code: string, delta: int) returns (r: Option<Fault>)
      modifies this
      ensures match Adjust(old(State()), code, delta)
              case Ok(after) => r == None && State() == after
              case Err(e) => r == Some(e) && State() == old(State())
    {
      if code !in skus || skus[code].stock.None? {
        return Some(NotFound);
      }
      var stock := skus[code].stock.value;
      var onHand := stock.onHand + delta;
      if onHand < stock.reserved {
        return Some(InsufficientStock);
      }
      skus := skus[code := skus[code].(stock := Some(stock.(onHand := onHand)))];
      r := None;
    }
  }

  // After n lines the batch is b.
  predicate Reached(t: Tables, entries: seq<Entry>, n: nat, b: Batch) {
    n <= |entries| && Run(t, entries, n) == Ok(b)
  }

  // The next line leads on, or its fault is the batch's.
  lemma ReachedNext(t: Tables, entries: seq<Entry>, n: nat, b: Batch)
    requires n < |entries| && Reached(t, entries, n, b)
    ensures match Advance(b, entries[n])
            case Ok(after) => Reached(t, entries, n + 1, after)
            case Err(e) => RunAll(t, entries) == Err(e)
  {
    if Advance(b, entries[n]).Err? {
      RunAborts(t, entries, n + 1, |entries|);
    }
  }

  lemma {:induction false} RunAborts(t: Tables, entries: seq<Entry>, m: nat, n: nat)
    requires m <= n <= |entries| && Run(t, entries, m).Err?
    ensures Run(t, entries, n) == Run(t, entries, m)
    decreases n
  {
    if m < n {
      RunAborts(t, entries, m, n - 1);
    }
  }

  // ----- One line -----

  // Applying a line adds exactly its quantity, at least 1, to its own code, and touches no other
  // code and no reservation.
  lemma AppliedMovesOneCode(t: Tables, r: Reading, code: string)
    ensures OnHand(Applied(t, r), code) == OnHand(t, code) + if code == r.code then r.quantity else 0
    ensures Reserved(Applied(t, r), code) == Reserved(t, code)
  {
  }

  lemma ReadQuantityPositive(env: Env, data: Fields)
    ensures Read(env, data).Ok? ==> Read(env, data).value.quantity >= 1
  {
  }

  // ----- What a line says -----

  // A JSON value says the whole number n: a number cut toward zero, a text `int` reads, a truth value.
  predicate Says(env: Env, v: Json, n: int) {
    match v
    case JNum(x) => if x >= 0.0 then n as real <= x < n as real + 1.0 else n as real - 1.0 < x <= n as real
    case JStr(s) => env.parseInt(s) == Some(n)
    case JBool(b) => n == if b then 1 else 0
    case _ => false
  }

  // The quantity it says, when that is at least 1.
  function SaidQuantity(env: Env, v: Json): int {
    match v
    case JNum(x) => x.Floor
    case JStr(s) => (var n := env.parseInt(s); if n.Some? then n.value else 0)
    case JBool(b) => if b then 1 else 0
    case _ => 0
  }

  // No price, or one that is written as a non-negative decimal and fits.
  predicate SaysPrice(env: Env, v: Json) {
    || v == JNull || v == JStr("")
    || var p := env.parseDecimal(Strip(env, Without(Without(Text(env, v), '$'), ',')));
       p.Some? && p.value >= 0.0 && env.roundPrice(p.value).Some?
  }

  function SaidPrice(env: Env, v: Json): Option<real>
    requires SaysPrice(env, v)
  {
    if v == JNull || v == JStr("") then None
    else env.roundPrice(env.parseDecimal(Strip(env, Without(Without(Text(env, v), '$'), ','))).value)
  }

  function SaidCode(env: Env, v: Json): string {
    env.upper(Strip(env, Text(env, v)))
  }

  predicate Acceptable(env: Env, quantity: Json, price: Json) {
    SaidQuantity(env, quantity) >= 1 && SaysPrice(env, price)
  }

  // The supplier found under the name that is given; none for an empty name.
  function SaidSupplier(env: Env, v: Json): Option<int> {
    if !Truthy(v) || Strip(env, Text(env, v)) == "" then None else env.supplierNamed(Strip(env, Text(env, v)))
  }

  // `int` has something to work on.
  predicate Countable(env: Env, v: Json) {
    v.JNum? || v.JBool? || (v.JStr? && env.parseInt(v.s).Some?)
  }

  // A price that is given, but is no decimal or a negative one.
  predicate BadPrice(env: Env, v: Json) {
    && v != JNull && v != JStr("")
    && var p := env.parseDecimal(Strip(env, Without(Without(Text(env, v), '$'), ',')));
       p.None? || p.value < 0.0
  }

  // A reading that says what the line says.
  predicate ReadsAsSaid(env: Env, r: Result<Reading, Fault>, quantity: Json, price: Json, skuCode: Json, name: Json, supplier: Json) {
    && (r.Ok? <==> Acceptable(env, quantity, price))
    && (r == Err(Invalid) <==> Countable(env, quantity) && (SaidQuantity(env, quantity) < 1 || BadPrice(env, price)))
    && (r.Err? ==> r.error in {Invalid, Crash})
    && (r.Ok? ==>
          && r.value.quantity == SaidQuantity(env, quantity) && Says(env, quantity, r.value.quantity)
          && r.value.price == SaidPrice(env, price) && r.value.supplier == SaidSupplier(env, supplier)
          && r.value.code == SaidCode(env, skuCode) && r.value.name == Strip(env, Text(env, name)))
  }

  // A line of a batch is accepted exactly when its own quantity is at least 1 and its own price can be
  // read, and then it is read as what it says.
  lemma LineReadsAsSaid(env: Env, header: Fields, line: Fields)
    ensures ReadsAsSaid(env, EntryOf(env, header, line).reading,
                        Get(line, "quantity"), Get(line, "unit_price"), Get(line, "sku_code"), Get(line, "item_name"),
                        Get(header, "supplier_name"))
  {
    SingleReadsAsSaid(env, Single(header, env, line));
    SingleKeepsLabels(header, env, line);
    StripTrims(env, Text(env, Get(header, "supplier_name")));
  }

  lemma SingleKeepsLabels(header: Fields, env: Env, line: Fields)
    ensures var data := Single(header, env, line);
            && "sku_code" in data && "product_name" in data && "quantity_received" in data
            && data["sku_code"] == Get(line, "sku_code") && data["product_name"] == Get(line, "item_name")
            && data["quantity_received"] == Get(line, "quantity") && Get(data, "unit_price") == Get(line, "unit_price")
            && Get(data, "supplier_name") == JStr(SupplierName(env, Get(header, "supplier_name")))
  {
    assert "sku_code"[0] != "product_name"[0] && "quantity_received"[0] != "unit_price"[0];
    assert "supplier_name"[1] != "sku_code"[1];
  }

  // The single-line shape keeps the quantity under "quantity_received", or else under "quantity".
  function QuantityOf(data: Fields): Json {
    if "quantity_received" in data then data["quantity_received"] else Get(data, "quantity")
  }

  lemma SingleReadsAsSaid(env: Env, data: Fields)
    ensures "sku_code" in data && "product_name" in data ==>
              ReadsAsSaid(env, Read(env, data), QuantityOf(data), Get(data, "unit_price"), data["sku_code"], data["product_name"],
                          Get(data, "supplier_name"))
    ensures "sku_code" !in data || "product_name" !in data ==> Read(env, data) == Err(Crash)
  {
    QuantityReadsAsSaid(env, data);
    PriceReadsAsSaid(env, Get(data, "unit_price"));
  }

  lemma QuantityReadsAsSaid(env: Env, data: Fields)
    ensures var r := ReadQuantity(env, data);
            && (r.Ok? <==> SaidQuantity(env, QuantityOf(data)) >= 1)
            && (r == Err(Invalid) <==> Countable(env, QuantityOf(data)) && SaidQuantity(env, QuantityOf(data)) < 1)
            && (r.Err? ==> r.error in {Invalid, Crash})
            && (r.Ok? ==> r.value == SaidQuantity(env, QuantityOf(data)) && Says(env, QuantityOf(data), r.value))
  {
  }

  lemma PriceReadsAsSaid(env: Env, v: Json)
    ensures var r := ReadPrice(env, v);
            && (r.Ok? <==> SaysPrice(env, v)) && (r.Ok? ==> r.value == SaidPrice(env, v))
            && (r == Err(Invalid) <==> BadPrice(env, v)) && (r.Err? ==> r.error in {Invalid, Crash})
  {
  }

  // A whole number is read as itself, a text as `int` reads it, a positive fraction cut down.
  lemma QuantityExamples(env: Env, n: int, s: string)
    requires n >= 1
    ensures ReadQuantity(env, map["quantity_received" := JNum(n as real)]) == Ok(n)
    ensures ReadQuantity(env, map["quantity" := JNum(n as real + 0.5)]) == Ok(n)
    ensures env.parseInt(s) == Some(n) ==> ReadQuantity(env, map["quantity_received" := JStr(s)]) == Ok(n)
  {
    assert "quantity_received" !in map["quantity" := JNum(n as real + 0.5)] by {
      assert |"quantity_received"| != |"quantity"|;
    }
  }

  // What applying a line does to the product: a price and a supplier that are given replace the old
  // ones, nothing else of it changes, and no other product does; an unknown code gets a new product.
  lemma AppliedMovesOneProduct(t: Tables, r: Reading)
    ensures var after := Applied(t, r);
            && r.code in after.skus
            && (forall code :: code in after.skus <==> code in t.skus || code == r.code)
            && (forall code :: code in t.skus && code != r.code ==> after.skus[code] == t.skus[code])
            && (if r.code in t.skus then
                  var p := t.skus[r.code].product;
                  && after.skus[r.code].product == p && |after.products| == |t.products|
                  && (forall i :: 0 <= i < |t.products| && i != p ==> after.products[i] == t.products[i])
                  && (p < |t.products| ==>
                        && after.products[p].name == t.products[p].name
                        && after.products[p].unitPrice == (if r.price.Some? then r.price else t.products[p].unitPrice)
                        && after.products[p].supplier == (if r.supplier.Some? then r.supplier else t.products[p].supplier))
                else
                  && after.skus[r.code].product == |t.products|
                  && after.products == t.products + [Product(r.name, r.supplier, r.price)])
  {
  }

  // ----- A batch -----

  // Accepted, rejected by validation, or failing in another way (which aborts the batch).
  datatype Kind = Accepted | Rejected | Crashing

  function KindOf(e: Entry): Kind {
    match e.reading
    case Ok(_) => Accepted
    case Err(Invalid) => Rejected
    case Err(_) => Crashing
  }

  // The positions of the lines of one kind among the first n, in order.
  function Positions(entries: seq<Entry>, n: nat, kind: Kind): seq<nat>
    requires n <= |entries|
  {
    if n == 0 then []
    else if KindOf(entries[n - 1]) == kind then Positions(entries, n - 1, kind) + [n - 1]
    else Positions(entries, n - 1, kind)
  }

  // They are strictly increasing, and they are exactly the lines of that kind.
  lemma {:induction false} PositionsExact(entries: seq<Entry>, n: nat, kind: Kind)
    requires n <= |entries|
    ensures var r := Positions(entries, n, kind);
            && (forall k :: 0 <= k < |r| ==> r[k] < n && KindOf(entries[r[k]]) == kind)
            && (forall i, j :: 0 <= i < j < |r| ==> r[i] < r[j])
            && (forall i :: 0 <= i < n && KindOf(entries[i]) == kind ==> i in r)
  {
    if n > 0 {
      PositionsExact(entries, n - 1, kind);
    }
  }

  // The total accepted quantity for a code among the first n lines.
  function AcceptedQuantity(entries: seq<Entry>, n: nat, code: string): int
    requires n <= |entries|
  {
    if n == 0 then 0 else AcceptedQuantity(entries, n - 1, code) + AcceptedFrom(entries[n - 1], code)
  }

  function AcceptedFrom(e: Entry, code: string): int {
    if e.reading.Ok? && e.reading.value.code == code then e.reading.value.quantity else 0
  }

  function Added(receipts: seq<Receipt>, code: string): int {
    if receipts == [] then 0
    else Added(receipts[..|receipts| - 1], code) + (if receipts[|receipts| - 1].sku == code then receipts[|receipts| - 1].added else 0)
  }

  lemma AddedAppend(receipts: seq<Receipt>, r: Receipt, code: string)
    ensures Added(receipts + [r], code) == Added(receipts, code) + if r.sku == code then r.added else 0
  {
    assert (receipts + [r])[..|receipts|] == receipts;
  }

  lemma AddedOne(r: Receipt, code: string)
    ensures Added([r], code) == if r.sku == code then r.added else 0
  {
    AddedAppend([], r, code);
    assert [] + [r] == [r];
  }

  predicate ReceiptOf(e: Entry, receipt: Receipt) {
    && e.reading.Ok? && receipt.sku == e.reading.value.code && receipt.added == e.reading.value.quantity
    && receipt.itemName == e.itemName && receipt.skuCode == e.skuCode
  }

  // The k-th reported line is the line at the k-th of the given positions.
  ghost predicate Reports(entries: seq<Entry>, positions: seq<nat>, receipts: seq<Receipt>) {
    && |positions| == |receipts|
    && forall k :: 0 <= k < |positions| ==> positions[k] < |entries| && ReceiptOf(entries[positions[k]], receipts[k])
  }

  ghost predicate ReportsFailed(entries: seq<Entry>, positions: seq<nat>, failed: seq<Json>) {
    && |positions| == |failed|
    && forall k :: 0 <= k < |positions| ==> positions[k] < |entries| && failed[k] == entries[positions[k]].skuCode
  }

  // The reported lines are the accepted lines in order, the failures the rejected lines in order,
  // and the two together are all the lines.
  lemma {:induction false} BatchPartitions(t: Tables, entries: seq<Entry>, n: nat)
    requires n <= |entries| && Run(t, entries, n).Ok?
    ensures var b := Run(t, entries, n).value;
            && Reports(entries, Positions(entries, n, Accepted), b.lines)
            && ReportsFailed(entries, Positions(entries, n, Rejected), b.failed)
            && |b.lines| + |b.failed| == n
  {
    if n > 0 {
      BatchPartitions(t, entries, n - 1);
    }
  }

  // Each code grows by exactly the accepted quantities of the lines that normalise to it, which is
  // also what the receipts say; reservations do not change.
  lemma {:induction false} BatchGrowth(t: Tables, entries: seq<Entry>, n: nat, code: string)
    requires n <= |entries| && Run(t, entries, n).Ok?
    ensures var b := Run(t, entries, n).value;
            && OnHand(b.tables, code) == OnHand(t, code) + AcceptedQuantity(entries, n, code)
            && Added(b.lines, code) == AcceptedQuantity(entries, n, code)
            && Reserved(b.tables, code) == Reserved(t, code)
  {
    if n > 0 {
      BatchGrowth(t, entries, n - 1, code);
      var b, e := Run(t, entries, n - 1).value, entries[n - 1];
      if e.reading.Ok? {
        AppliedMovesOneCode(b.tables, e.reading.value, code);
        AddedAppend(b.lines, EntryReceipt(b.tables, e), code);
      }
    }
  }

  // A receipt gives the stock of its code right after its own line: what there was, and everything
  // accepted for that code up to that line.
  lemma {:induction false} ReceiptsSayStock(t: Tables, entries: seq<Entry>, n: nat, k: nat)
    requires n <= |entries| && Run(t, entries, n).Ok? && k < |Run(t, entries, n).value.lines|
    ensures var positions, receipt := Positions(entries, n, Accepted), Run(t, entries, n).value.lines[k];
            && k < |positions| && positions[k] < n
            && receipt.onHand == OnHand(t, receipt.sku) + AcceptedQuantity(entries, positions[k] + 1, receipt.sku)
  {
    BatchPartitions(t, entries, n - 1);
    var before, e := Run(t, entries, n - 1).value, entries[n - 1];
    if k < |before.lines| {
      ReceiptsSayStock(t, entries, n - 1, k);
    } else {
      BatchGrowth(t, entries, n - 1, e.reading.value.code);
    }
  }

  // An adjustment is refused exactly for a code without a stock level, or when the result would fall
  // below the reservation.
  lemma AdjustRefusedExactly(t: Tables, code: string, delta: int)
    ensures var known := code in t.skus && t.skus[code].stock.Some?;
            && (Adjust(t, code, delta) == Err(NotFound) <==> !known)
            && (Adjust(t, code, delta) == Err(InsufficientStock) <==> known && OnHand(t, code) + delta < Reserved(t, code))
            && (Adjust(t, code, delta).Ok? <==> known && OnHand(t, code) + delta >= Reserved(t, code))
  {
  }

  // ----- Rejected lines -----

  // The accepted lines among the first n.
  function AcceptedEntries(entries: seq<Entry>, n: nat): seq<Entry>
    requires n <= |entries|
  {
    if n == 0 then []
    else AcceptedEntries(entries, n - 1) + if KindOf(entries[n - 1]) == Accepted then [entries[n - 1]] else []
  }

  lemma {:induction false} RunOfPrefix(t: Tables, entries: seq<Entry>, longer: seq<Entry>, n: nat)
    requires n <= |entries| && entries <= longer
    ensures Run(t, longer, n) == Run(t, entries, n)
  {
    if n > 0 {
      RunOfPrefix(t, entries, longer, n - 1);
    }
  }

  // Rejected lines change nothing at all: the tables (stock, SKUs, products, prices, suppliers) and
  // the reported lines are those of a batch of the accepted lines alone.
  lemma {:induction false} RejectedLinesChangeNothing(t: Tables, entries: seq<Entry>, n: nat)
    requires n <= |entries| && Run(t, entries, n).Ok?
    ensures var accepted := AcceptedEntries(entries, n);
            Run(t, accepted, |accepted|) == Ok(Run(t, entries, n).value.(failed := []))
  {
    if n > 0 {
      RejectedLinesChangeNothing(t, entries, n - 1);
      var before, e := AcceptedEntries(entries, n - 1), entries[n - 1];
      if KindOf(e) == Accepted {
        RunOfPrefix(t, before, before + [e], |before|);
      } else {
        assert AcceptedEntries(entries, n) == before;
      }
    }
  }

  // ----- Growth in the lines' own terms -----

  // What the acceptable lines among the first n say for a code.
  function SaidTotal(env: Env, lines: seq<Fields>, n: nat, code: string): int
    requires n <= |lines|
  {
    if n == 0 then 0 else SaidTotal(env, lines, n - 1, code) + SaidFor(env, lines[n - 1], code)
  }

  function SaidFor(env: Env, line: Fields, code: string): int {
    if Acceptable(env, Get(line, "quantity"), Get(line, "unit_price")) && SaidCode(env, Get(line, "sku_code")) == code
    then SaidQuantity(env, Get(line, "quantity")) else 0
  }

  lemma AcceptedFor(env: Env, header: Fields, line: Fields, code: string)
    ensures SaidFor(env, line, code) == AcceptedFrom(EntryOf(env, header, line), code)
  {
    LineReadsAsSaid(env, header, line);
  }

  lemma {:induction false} AcceptedIsSaid(env: Env, header: Fields, lines: seq<Fields>, n: nat, code: string)
    requires n <= |lines|
    ensures AcceptedQuantity(Entries(env, header, lines), n, code) == SaidTotal(env, lines, n, code)
  {
    var entries := Entries(env, header, lines);
    if n > 0 {
      AcceptedIsSaid(env, header, lines, n - 1, code);
      AcceptedFor(env, header, lines[n - 1], code);
      assert entries[n - 1] == EntryOf(env, header, lines[n - 1]);
      assert AcceptedQuantity(entries, n, code) == AcceptedQuantity(entries, n - 1, code) + AcceptedFrom(entries[n - 1], code);
      assert SaidTotal(env, lines, n, code) == SaidTotal(env, lines, n - 1, code) + SaidFor(env, lines[n - 1], code);
    }
  }

  // A batch moves the stock of each code by exactly what its acceptable lines say.
  lemma BatchGrowsAsSaid(env: Env, t: Tables, header: Fields, lines: seq<Fields>, code: string)
    requires RunAll(t, Entries(env, header, lines)).Ok?
    ensures var b := RunAll(t, Entries(env, header, lines)).value;
            && OnHand(b.tables, code) == OnHand(t, code) + SaidTotal(env, lines, |lines|, code)
            && Added(b.lines, code) == SaidTotal(env, lines, |lines|, code)
  {
    BatchGrowth(t, Entries(env, header, lines), |lines|, code);
    AcceptedIsSaid(env, header, lines, |lines|, code);
  }

  // Accepted quantities are positive, so stock never shrinks through an invoice.
  predicate AllPositive(entries: seq<Entry>) {
    forall i :: 0 <= i < |entries| && entries[i].reading.Ok? ==> entries[i].reading.value.quantity >= 1
  }

  lemma EntriesArePositive(env: Env, header: Fields, lines: seq<Fields>)
    ensures AllPositive(Entries(env, header, lines))
  {
    forall i | 0 <= i < |lines|
      ensures EntryOf(env, header, lines[i]).reading.Ok? ==> EntryOf(env, header, lines[i]).reading.value.quantity >= 1
    {
      ReadQuantityPositive(env, Single(header, env, lines[i]));
    }
  }

  lemma {:induction false} AcceptedQuantityGrows(entries: seq<Entry>, n: nat, code: string)
    requires n <= |entries| && AllPositive(entries)
    ensures AcceptedQuantity(entries, n, code) >= 0
  {
    if n > 0 {
      AcceptedQuantityGrows(entries, n - 1, code);
    }
  }

  lemma {:induction false} RunFailsIffCrash(t: Tables, entries: seq<Entry>, n: nat)
    requires n <= |entries|
    ensures Run(t, entries, n).Err? <==> exists i :: 0 <= i < n && KindOf(entries[i]) == Crashing
  {
    if n > 0 {
      RunFailsIffCrash(t, entries, n - 1);
    }
  }

  lemma {:induction false} StopsAtFault(t: Tables, entries: seq<Entry>, n: nat, i: nat)
    requires i < n <= |entries| && KindOf(entries[i]) == Crashing && forall j :: 0 <= j < i ==> KindOf(entries[j]) != Crashing
    ensures Run(t, entries, n) == Err(entries[i].reading.error)
  {
    if i < n - 1 {
      StopsAtFault(t, entries, n - 1, i);
    } else {
      RunFailsIffCrash(t, entries, i);
    }
  }

  // The error of a batch is the first fault that is no failed validation, or a failed validation when
  // every line failed its own.
  lemma BatchErrorExactly(t: Tables, entries: seq<Entry>, i: nat)
    ensures ApplyBatch(t, entries) == Err(Invalid) <==>
              entries != [] && forall k :: 0 <= k < |entries| ==> KindOf(entries[k]) == Rejected
    ensures i < |entries| && KindOf(entries[i]) == Crashing && (forall j :: 0 <= j < i ==> KindOf(entries[j]) != Crashing) ==>
              ApplyBatch(t, entries) == Err(entries[i].reading.error)
  {
    BatchRaisesExactly(t, entries);
    if i < |entries| && KindOf(entries[i]) == Crashing && forall j :: 0 <= j < i ==> KindOf(entries[j]) != Crashing {
      StopsAtFault(t, entries, |entries|, i);
    }
    RunFailsIffCrash(t, entries, |entries|);
    CrashIsNotInvalid(t, entries, |entries|);
  }

  lemma {:induction false} CrashIsNotInvalid(t: Tables, entries: seq<Entry>, n: nat)
    requires n <= |entries|
    ensures Run(t, entries, n) != Err(Invalid)
  {
    if n > 0 {
      CrashIsNotInvalid(t, entries, n - 1);
    }
  }

  // The batch raises exactly when a line fails other than by validation, or there are lines and
  // every one of them is rejected.
  lemma BatchRaisesExactly(t: Tables, entries: seq<Entry>)
    ensures ApplyBatch(t, entries).Err? <==>
              || (exists i :: 0 <= i < |entries| && KindOf(entries[i]) == Crashing)
              || (entries != [] && forall i :: 0 <= i < |entries| ==> KindOf(entries[i]) == Rejected)
  {
    RunFailsIffCrash(t, entries, |entries|);
    if Run(t, entries, |entries|).Ok? {
      BatchPartitions(t, entries, |entries|);
      PositionsExact(entries, |entries|, Accepted);
      var accepted := Positions(entries, |entries|, Accepted);
      if accepted != [] {
        assert KindOf(entries[accepted[0]]) == Accepted;
      } else {
        forall i | 0 <= i < |entries|
          ensures KindOf(entries[i]) == Rejected
        {
          assert KindOf(entries[i]) != Accepted;
          assert KindOf(entries[i]) != Crashing;
        }
      }
    }
  }
}
