// The tolerant parser of vision-model invoice JSON (ai/llm/invoice_schema.py).  A parsed record
// (header or line item) is its dump: a map from field names to JNull, a text or a number.
module InvoiceParser {
  import opened Sequences
  import opened Wrappers
  import opened Json

  // One field: its name, the accepted aliases (first match wins), and whether it is a number.
  datatype Column = Column(key: string, aliases: seq<string>, numeric: bool)

  const HEADER_COLUMNS: seq<Column> := [
    Column("supplier_name", ["supplier_name", "supplier", "vendor", "vendor_name", "seller", "from"], false),
    Column("invoice_number", ["invoice_number", "invoice_no", "invoice_id", "number", "inv_no", "invoice"], false),
    Column("invoice_date", ["invoice_date", "date", "issue_date", "issued", "issued_on"], false),
    Column("due_date", ["due_date", "payment_due", "due", "due_on"], false),
    Column("currency", ["currency", "currency_code", "curr"], false),
    Column("invoice_total", ["invoice_total", "total", "grand_total", "total_amount", "amount_due", "amount"], true),
    Column("tax_amount", ["tax_amount", "tax", "vat", "vat_amount", "tax_total", "gst"], true)]

  const LINE_COLUMNS: seq<Column> := [
    Column("item_name", ["item_name", "name", "description", "product_name", "item", "product"], false),
    Column("sku_code", ["sku_code", "sku", "code", "item_code", "product_code"], false),
    Column("quantity", ["quantity", "qty", "quantity_received", "count", "units"], true),
    Column("unit_price", ["unit_price", "price", "rate", "unit_cost", "cost"], true),
    Column("total_price", ["total_price", "total", "line_total", "amount", "subtotal"], true)]

  const LEGACY_FIELDS: seq<string> := ["product_name", "sku_code", "quantity_received", "unit_price", "supplier_name"]

  datatype Extraction = Extraction(header: Fields, lineItems: seq<Fields>, confidence: Fields)

  // ----- Cells -----

  // `_unwrap`: the value and its confidence (JNull when there is none).
  function Unwrap(raw: Json): (Json, Json) {
    if raw.JDict? && ("value" in raw.entries || "confidence" in raw.entries)
    then (Get(raw.entries, "value"), Get(raw.entries, "confidence"))
    else (raw, JNull)
  }

  function CleanStr(env: Env, v: Json): Json {
    if v == JNull then JNull
    else
      var text := Strip(env, Text(env, v));
      if text == "" then JNull else JStr(text)
  }

  function CoerceNumber(env: Env, v: Json): Json {
    if v == JNull || v == JStr("") || v.JBool? then JNull
    else if v.JNum? then v
    else
      var cleaned := Strip(env, Without(Without(Text(env, v), '$'), ','));
      if cleaned == "" then JNull
      else
        var parsed := env.parseFloat(cleaned);
        if parsed.Some? then JNum(parsed.value) else JNull
  }

  function Pick(source: Fields, aliases: seq<string>): Json {
    if aliases == [] then JNull
    else if aliases[0] in source then source[aliases[0]]
    else Pick(source, aliases[1..])
  }

  function Cell(env: Env, source: Fields, c: Column): Json {
    var value := Unwrap(Pick(source, c.aliases)).0;
    if c.numeric then CoerceNumber(env, value) else CleanStr(env, value)
  }

  function CellConfidence(source: Fields, c: Column): Json {
    Unwrap(Pick(source, c.aliases)).1
  }

  // ----- Records -----

  // The first n columns of a record.
  function Record(env: Env, source: Fields, columns: seq<Column>, n: nat): Fields
    requires n <= |columns|
  {
    if n == 0 then map[]
    else Record(env, source, columns, n - 1)[columns[n - 1].key := Cell(env, source, columns[n - 1])]
  }

  function Blank(columns: seq<Column>, n: nat): Fields
    requires n <= |columns|
  {
    if n == 0 then map[] else Blank(columns, n - 1)[columns[n - 1].key := JNull]
  }

  // The header confidences of the first n columns.
  function HeaderConfidence(source: Fields, columns: seq<Column>, n: nat): Fields
    requires n <= |columns|
  {
    if n == 0 then map[]
    else
      var before := HeaderConfidence(source, columns, n - 1);
      var conf := CellConfidence(source, columns[n - 1]);
      if conf == JNull then before else before[columns[n - 1].key := conf]
  }

  predicate IsEmpty(item: Fields) {
    forall k :: k in item ==> item[k] == JNull || item[k] == JStr("")
  }

  function Scored(env: Env, conf: Json): seq<real> {
    var n := CoerceNumber(env, conf);
    if n.JNum? then [n.n] else []
  }

  // The confidences found in the first n cells of a row.
  function RowScores(env: Env, row: Fields, columns: seq<Column>, n: nat): seq<real>
    requires n <= |columns|
  {
    if n == 0 then [] else RowScores(env, row, columns, n - 1) + Scored(env, CellConfidence(row, columns[n - 1]))
  }

  function RowItem(env: Env, row: Fields, columns: seq<Column>): Fields {
    Record(env, row, columns, |columns|)
  }

  function AllScores(env: Env, row: Fields, columns: seq<Column>): seq<real> {
    RowScores(env, row, columns, |columns|) + Scored(env, Get(row, "confidence"))
  }

  predicate Kept(env: Env, row: Json, columns: seq<Column>) {
    row.JDict? && !IsEmpty(RowItem(env, row.entries, columns))
  }

  // What one row contributes: at most one item, and at most one score.
  function RowItems(env: Env, row: Json, columns: seq<Column>): seq<Fields> {
    if Kept(env, row, columns) then [RowItem(env, row.entries, columns)] else []
  }

  function RowMean(env: Env, row: Json, columns: seq<Column>): seq<real> {
    if Kept(env, row, columns) && AllScores(env, row.entries, columns) != []
    then [Mean(AllScores(env, row.entries, columns))] else []
  }

  function Items(env: Env, rows: seq<Json>, columns: seq<Column>): seq<Fields> {
    if rows == [] then [] else Items(env, rows[..|rows| - 1], columns) + RowItems(env, rows[|rows| - 1], columns)
  }

  function Means(env: Env, rows: seq<Json>, columns: seq<Column>): seq<real> {
    if rows == [] then [] else Means(env, rows[..|rows| - 1], columns) + RowMean(env, rows[|rows| - 1], columns)
  }

  function LineConfidence(env: Env, rows: seq<Json>, columns: seq<Column>): Fields {
    var means := Means(env, rows, columns);
    if means == [] then map[] else map["line_items" := JNum(Mean(means))]
  }

  // ----- The two shapes -----

  function DictAt(raw: Fields, key: string): Option<Fields> {
    if Get(raw, key).JDict? then Some(Get(raw, key).entries) else None
  }

  function ListAt(raw: Fields, key: string): Option<seq<Json>> {
    if Get(raw, key).JList? then Some(Get(raw, key).items) else None
  }

  function OrElse<T>(o: Option<T>, default: T): T {
    if o.Some? then o.value else default
  }

  function Structured(env: Env, header: Fields, rows: seq<Json>): Extraction {
    StructuredBy(env, header, rows, HEADER_COLUMNS, LINE_COLUMNS)
  }

  function StructuredBy(env: Env, header: Fields, rows: seq<Json>, columns: seq<Column>, lineColumns: seq<Column>): Extraction {
    Extraction(Record(env, header, columns, |columns|),
               Items(env, rows, lineColumns),
               HeaderConfidence(header, columns, |columns|) + LineConfidence(env, rows, lineColumns))
  }

  function LegacyValue(fields: Fields, f: string): Json {
    Unwrap(Get(fields, f)).0
  }

  // The confidences of the first n legacy fields.
  function LegacyConfidence(fields: Fields, blob: Fields, names: seq<string>, n: nat): Fields
    requires n <= |names|
  {
    if n == 0 then map[]
    else
      var f := names[n - 1];
      var own := Unwrap(Get(fields, f)).1;
      var conf := if own == JNull then Get(blob, f) else own;
      var before := LegacyConfidence(fields, blob, names, n - 1);
      if conf == JNull then before else before[f := conf]
  }

  function LegacyHeader(env: Env, fields: Fields, columns: seq<Column>): Fields {
    Blank(columns, |columns|)["supplier_name" := CleanStr(env, LegacyValue(fields, "supplier_name"))]
  }

  function LegacyLine(env: Env, fields: Fields, columns: seq<Column>): Fields {
    Blank(columns, |columns|)
      ["item_name" := CleanStr(env, LegacyValue(fields, "product_name"))]
      ["sku_code" := CleanStr(env, LegacyValue(fields, "sku_code"))]
      ["quantity" := CoerceNumber(env, LegacyValue(fields, "quantity_received"))]
      ["unit_price" := CoerceNumber(env, LegacyValue(fields, "unit_price"))]
  }

  function Legacy(env: Env, fields: Fields, blob: Fields): Extraction {
    LegacyBy(env, fields, blob, HEADER_COLUMNS, LINE_COLUMNS)
  }

  function LegacyBy(env: Env, fields: Fields, blob: Fields, columns: seq<Column>, lineColumns: seq<Column>): Extraction {
    var line := LegacyLine(env, fields, lineColumns);
    Extraction(LegacyHeader(env, fields, columns), if IsEmpty(line) then [] else [line],
               LegacyConfidence(fields, blob, LEGACY_FIELDS, |LEGACY_FIELDS|))
  }

  // `from_vision_json`
  function Parse(env: Env, raw: Json): Extraction {
    if !raw.JDict? then Extraction(Blank(HEADER_COLUMNS, |HEADER_COLUMNS|), [], map[])
    else
      var header, rows := DictAt(raw.entries, "header"), ListAt(raw.entries, "line_items");
      var topConfidence := OrElse(DictAt(raw.entries, "confidence"), map[]);
      var x :=
        if header.Some? || rows.Some? then Structured(env, OrElse(header, map[]), OrElse(rows, []))
        else Legacy(env, OrElse(DictAt(raw.entries, "fields"), raw.entries), topConfidence);
      x.(confidence := topConfidence + x.confidence)
  }

  // `model_dump`
  function Dump(x: Extraction): Json {
    JDict(map[
      "header" := JDict(x.header),
      "line_items" := JList(seq(|x.lineItems|, i requires 0 <= i < |x.lineItems| => JDict(x.lineItems[i]))),
      "confidence" := JDict(x.confidence)])
  }

  // ----- The parsing loops -----

  method ParseHeader(env: Env, source: Fields, columns: seq<Column>, confidence: Fields)
    returns (header: Fields, confidence': Fields)
    ensures header == Record(env, source, columns, |columns|)
    ensures confidence' == confidence + HeaderConfidence(source, columns, |columns|)
  {
    header, confidence' := map[], confidence;
    for i := 0 to |columns|
      invariant header == Record(env, source, columns, i)
      invariant confidence' == confidence + HeaderConfidence(source, columns, i)
    {
      var column := columns[i];
      var (value, conf) := Unwrap(Pick(source, column.aliases));
      header := header[column.key := if column.numeric then CoerceNumber(env, value) else CleanStr(env, value)];
      HeaderConfidenceMerged(source, columns, i, confidence);
      if conf != JNull {
        confidence' := confidence'[column.key := conf];
      }
    }
  }

  lemma HeaderConfidenceMerged(source: Fields, columns: seq<Column>, n: nat, confidence: Fields)
    requires n < |columns|
    ensures var before, conf := confidence + HeaderConfidence(source, columns, n), CellConfidence(source, columns[n]);
            confidence + HeaderConfidence(source, columns, n + 1)
            == if conf == JNull then before else before[columns[n].key := conf]
  {
  }

  method ParseRow(env: Env, row: Fields, columns: seq<Column>) returns (item: Fields, scores: seq<real>)
    ensures item == RowItem(env, row, columns)
    ensures scores == AllScores(env, row, columns)
  {
    item, scores := map[], [];
    for i := 0 to |columns|
      invariant item == Record(env, row, columns, i)
      invariant scores == RowScores(env, row, columns, i)
    {
      var column := columns[i];
      var (value, conf) := Unwrap(Pick(row, column.aliases));
      item := item[column.key := if column.numeric then CoerceNumber(env, value) else CleanStr(env, value)];
      if conf != JNull {
        var coerced := CoerceNumber(env, conf);
        if coerced.JNum? {
          scores := scores + [coerced.n];
        }
      }
    }
    var rowConf := CoerceNumber(env, Get(row, "confidence"));
    if rowConf.JNum? {
      scores := scores + [rowConf.n];
    }
  }

  method ParseLineItems(env: Env, rows: seq<Json>, columns: seq<Column>, confidence: Fields)
    returns (items: seq<Fields>, confidence': Fields)
    ensures items == Items(env, rows, columns)
    ensures confidence' == confidence + LineConfidence(env, rows, columns)
  {
    items := [];
    var means: seq<real> := [];
    for i := 0 to |rows|
      invariant items == Items(env, rows[..i], columns)
      invariant means == Means(env, rows[..i], columns)
    {
      assert rows[..i + 1] == rows[..i] + [rows[i]];
      ItemsAppend(env, rows[..i], rows[i], columns);
      if rows[i].JDict? {
        var item, scores := ParseRow(env, rows[i].entries, columns);
        var empty := IsEmpty(item);
        RowContribution(env, rows[i], columns, item, scores);
        if !empty {
          items := items + [item];
          if scores != [] {
            means := means + [Mean(scores)];
          }
        }
      }
    }
    assert rows[..|rows|] == rows;
    confidence' := confidence;
    if means != [] {
      confidence' := confidence'["line_items" := JNum(Mean(means))];
    }
    LineConfidenceMerged(env, rows, columns, confidence);
  }

  lemma LineConfidenceMerged(env: Env, rows: seq<Json>, columns: seq<Column>, confidence: Fields)
    ensures var means := Means(env, rows, columns);
            confidence + LineConfidence(env, rows, columns)
            == if means == [] then confidence else confidence["line_items" := JNum(Mean(means))]
  {
  }

  lemma RowContribution(env: Env, row: Json, columns: seq<Column>, item: Fields, scores: seq<real>)
    requires row.JDict? && item == RowItem(env, row.entries, columns) && scores == AllScores(env, row.entries, columns)
    ensures RowItems(env, row, columns) == if IsEmpty(item) then [] else [item]
    ensures RowMean(env, row, columns) == if IsEmpty(item) || scores == [] then [] else [Mean(scores)]
  {
  }

  method ParseLegacyFields(fields: Fields, blob: Fields, names: seq<string>)
    returns (legacy: Fields, confidence: Fields)
    ensures forall k :: 0 <= k < |names| ==> names[k] in legacy && legacy[names[k]] == LegacyValue(fields, names[k])
    ensures confidence == LegacyConfidence(fields, blob, names, |names|)
  {
    legacy, confidence := map[], map[];
    for i := 0 to |names|
      invariant forall k :: 0 <= k < i ==> names[k] in legacy && legacy[names[k]] == LegacyValue(fields, names[k])
      invariant confidence == LegacyConfidence(fields, blob, names, i)
    {
      var f := names[i];
      var (value, conf) := Unwrap(Get(fields, f));
      if conf == JNull {
        conf := Get(blob, f);
      }
      legacy := legacy[f := value];
      if conf != JNull {
        confidence := confidence[f := conf];
      }
    }
  }

  method ParseLegacy(env: Env, fields: Fields, blob: Fields) returns (x: Extraction)
    ensures x == Legacy(env, fields, blob)
  {
    var legacy, confidence := ParseLegacyFields(fields, blob, LEGACY_FIELDS);
    assert LEGACY_FIELDS[4] == "supplier_name" && LEGACY_FIELDS[0] == "product_name" && LEGACY_FIELDS[1] == "sku_code"
        && LEGACY_FIELDS[2] == "quantity_received" && LEGACY_FIELDS[3] == "unit_price";
    var header := Blank(HEADER_COLUMNS, |HEADER_COLUMNS|)["supplier_name" := CleanStr(env, legacy["supplier_name"])];
    var line := Blank(LINE_COLUMNS, |LINE_COLUMNS|)
      ["item_name" := CleanStr(env, legacy["product_name"])]
      ["sku_code" := CleanStr(env, legacy["sku_code"])]
      ["quantity" := CoerceNumber(env, legacy["quantity_received"])]
      ["unit_price" := CoerceNumber(env, legacy["unit_price"])];
    var empty := IsEmpty(line);
    x := Extraction(header, if empty then [] else [line], confidence);
  }

  method ParseStructured(env: Env, source: Fields, rows: seq<Json>, columns: seq<Column>, lineColumns: seq<Column>)
    returns (x: Extraction)
    ensures x == StructuredBy(env, source, rows, columns, lineColumns)
  {
    var header, confidence := ParseHeader(env, source, columns, map[]);
    var items, confidence' := ParseLineItems(env, rows, lineColumns, confidence);
    assert map[] + HeaderConfidence(source, columns, |columns|) == HeaderConfidence(source, columns, |columns|);
    x := Extraction(header, items, confidence');
  }

  method FromVisionJson(env: Env, raw: Json) returns (x: Extraction)
    ensures x == Parse(env, raw)
  {
    if !raw.JDict? {
      return Extraction(Blank(HEADER_COLUMNS, |HEADER_COLUMNS|), [], map[]);
    }
    var header, rows := DictAt(raw.entries, "header"), ListAt(raw.entries, "line_items");
    var topConfidence := OrElse(DictAt(raw.entries, "confidence"), map[]);
    if header.Some? || rows.Some? {
      x := ParseStructured(env, OrElse(header, map[]), OrElse(rows, []), HEADER_COLUMNS, LINE_COLUMNS);
    } else {
      x := ParseLegacy(env, OrElse(DictAt(raw.entries, "fields"), raw.entries), topConfidence);
    }
    // setdefault: an entry of the top-level blob never replaces one already captured.
    x := x.(confidence := topConfidence + x.confidence);
  }

  lemma ItemsAppend(env: Env, rows: seq<Json>, row: Json, columns: seq<Column>)
    ensures Items(env, rows + [row], columns) == Items(env, rows, columns) + RowItems(env, row, columns)
    ensures Means(env, rows + [row], columns) == Means(env, rows, columns) + RowMean(env, row, columns)
  {
    assert (rows + [row])[..|rows|] == rows;
  }

  // ----- Rows keep their order -----

  // Each row contributes on its own, in place: items of a concatenation are the concatenated items.
  lemma {:induction false} RowsKeepOrder(env: Env, a: seq<Json>, b: seq<Json>, columns: seq<Column>)
    ensures Items(env, a + b, columns) == Items(env, a, columns) + Items(env, b, columns)
  {
    if b == [] {
      assert a + b == a;
    } else {
      var init, last := b[..|b| - 1], b[|b| - 1];
      assert b == init + [last];
      assert a + b == (a + init) + [last];
      calc {
        Items(env, a + b, columns);
        { ItemsAppend(env, a + init, last, columns); }
        Items(env, a + init, columns) + RowItems(env, last, columns);
        { RowsKeepOrder(env, a, init, columns); }
        (Items(env, a, columns) + Items(env, init, columns)) + RowItems(env, last, columns);
        Items(env, a, columns) + (Items(env, init, columns) + RowItems(env, last, columns));
        { ItemsAppend(env, init, last, columns); }
        Items(env, a, columns) + Items(env, b, columns);
      }
    }
  }

  lemma {:induction false} MeansKeepOrder(env: Env, a: seq<Json>, b: seq<Json>, columns: seq<Column>)
    ensures Means(env, a + b, columns) == Means(env, a, columns) + Means(env, b, columns)
  {
    if b == [] {
      assert a + b == a;
    } else {
      var init, last := b[..|b| - 1], b[|b| - 1];
      assert b == init + [last];
      assert a + b == (a + init) + [last];
      calc {
        Means(env, a + b, columns);
        { ItemsAppend(env, a + init, last, columns); }
        Means(env, a + init, columns) + RowMean(env, last, columns);
        { MeansKeepOrder(env, a, init, columns); }
        (Means(env, a, columns) + Means(env, init, columns)) + RowMean(env, last, columns);
        Means(env, a, columns) + (Means(env, init, columns) + RowMean(env, last, columns));
        { ItemsAppend(env, init, last, columns); }
        Means(env, a, columns) + Means(env, b, columns);
      }
    }
  }

  lemma {:induction false} ItemsNotEmpty(env: Env, rows: seq<Json>, columns: seq<Column>, k: nat)
    requires k < |Items(env, rows, columns)|
    ensures !IsEmpty(Items(env, rows, columns)[k])
  {
    if k < |Items(env, rows[..|rows| - 1], columns)| {
      ItemsNotEmpty(env, rows[..|rows| - 1], columns, k);
    }
  }

  // No stored line item is empty.
  lemma NoEmptyLineItem(env: Env, raw: Json, k: nat)
    requires k < |Parse(env, raw).lineItems|
    ensures !IsEmpty(Parse(env, raw).lineItems[k])
  {
    if raw.JDict? && (DictAt(raw.entries, "header").Some? || ListAt(raw.entries, "line_items").Some?) {
      ItemsNotEmpty(env, OrElse(ListAt(raw.entries, "line_items"), []), LINE_COLUMNS, k);
    }
  }

  // ----- What is read -----

  // The value a cell gives: a dictionary with a "value" or a "confidence" is a wrapper.
  predicate Wrapper(cell: Json) {
    cell.JDict? && ("value" in cell.entries || "confidence" in cell.entries)
  }

  predicate SaidIn(env: Env, cell: Json, numeric: bool, out: Json) {
    var v := if !Wrapper(cell) then cell else if "value" in cell.entries then cell.entries["value"] else JNull;
    if numeric then SaidNumber(env, v, out) else SaidText(env, v, out)
  }

  predicate SaidText(env: Env, v: Json, out: Json) {
    var t := if v.JStr? then Strip(env, v.s) else Strip(env, env.render(v));
    out == if v == JNull || t == "" then JNull else JStr(t)
  }

  // A number as it is; a text without its dollar signs, commas and outer blanks, as `float` reads it.
  predicate SaidNumber(env: Env, v: Json, out: Json) {
    match v
    case JNull => out == JNull
    case JBool(_) => out == JNull
    case JNum(_) => out == v
    case _ =>
      var t := Strip(env, Plain(if v.JStr? then v.s else env.render(v)));
      if t != "" && env.parseFloat(t).Some? then out == JNum(env.parseFloat(t).value) else out == JNull
  }

  predicate FirstIn(source: Fields, names: seq<string>, k: int) {
    0 <= k < |names| && names[k] in source && forall j :: 0 <= j < k ==> names[j] !in source
  }

  // The first of the names that is present is read; nothing when none is.
  ghost predicate ReadFrom(env: Env, source: Fields, names: seq<string>, numeric: bool, out: Json) {
    && (forall k :: FirstIn(source, names, k) ==> SaidIn(env, source[names[k]], numeric, out))
    && ((forall k :: 0 <= k < |names| ==> names[k] !in source) ==> out == JNull)
  }

  lemma {:induction false} FirstIsPicked(source: Fields, names: seq<string>, k: int)
    requires FirstIn(source, names, k)
    ensures Pick(source, names) == source[names[k]]
  {
    if k > 0 {
      assert forall j :: 0 <= j < k - 1 ==> names[1..][j] == names[j + 1];
      FirstIsPicked(source, names[1..], k - 1);
    }
  }

  lemma {:induction false} NoneIsPicked(source: Fields, names: seq<string>)
    requires forall k :: 0 <= k < |names| ==> names[k] !in source
    ensures Pick(source, names) == JNull
  {
    if names != [] {
      assert names[0] !in source;
      assert forall k :: 0 <= k < |names| - 1 ==> names[1..][k] == names[k + 1];
      NoneIsPicked(source, names[1..]);
    }
  }

  lemma NumberIsSaid(env: Env, v: Json)
    ensures SaidNumber(env, v, CoerceNumber(env, v))
  {
    WithoutBothIsPlain(Text(env, v));
  }

  lemma CellIsSaid(env: Env, cell: Json, numeric: bool)
    ensures var v := Unwrap(cell).0;
            SaidIn(env, cell, numeric, if numeric then CoerceNumber(env, v) else CleanStr(env, v))
  {
    NumberIsSaid(env, Unwrap(cell).0);
  }

  lemma CellIsRead(env: Env, source: Fields, c: Column)
    ensures ReadFrom(env, source, c.aliases, c.numeric, Cell(env, source, c))
  {
    forall k | FirstIn(source, c.aliases, k)
      ensures SaidIn(env, source[c.aliases[k]], c.numeric, Cell(env, source, c))
    {
      FirstIsPicked(source, c.aliases, k);
      CellIsSaid(env, source[c.aliases[k]], c.numeric);
    }
    if forall k :: 0 <= k < |c.aliases| ==> c.aliases[k] !in source {
      NoneIsPicked(source, c.aliases);
    }
  }

  lemma {:induction false} RecordAt(env: Env, source: Fields, columns: seq<Column>, n: nat, i: nat)
    requires i < n <= |columns| && WellKeyed(columns)
    ensures columns[i].key in Record(env, source, columns, n)
    ensures Record(env, source, columns, n)[columns[i].key] == Cell(env, source, columns[i])
  {
    if i < n - 1 {
      RecordAt(env, source, columns, n - 1, i);
    }
  }

  ghost predicate FieldOf(env: Env, source: Fields, names: seq<string>, numeric: bool, r: Fields) {
    names != [] && names[0] in r && ReadFrom(env, source, names, numeric, r[names[0]])
  }

  // What a header says, field by field.
  ghost predicate HeaderOf(env: Env, source: Fields, r: Fields) {
    && FieldOf(env, source, ["supplier_name", "supplier", "vendor", "vendor_name", "seller", "from"], false, r)
    && FieldOf(env, source, ["invoice_number", "invoice_no", "invoice_id", "number", "inv_no", "invoice"], false, r)
    && FieldOf(env, source, ["invoice_date", "date", "issue_date", "issued", "issued_on"], false, r)
    && FieldOf(env, source, ["due_date", "payment_due", "due", "due_on"], false, r)
    && FieldOf(env, source, ["currency", "currency_code", "curr"], false, r)
    && FieldOf(env, source, ["invoice_total", "total", "grand_total", "total_amount", "amount_due", "amount"], true, r)
    && FieldOf(env, source, ["tax_amount", "tax", "vat", "vat_amount", "tax_total", "gst"], true, r)
  }

  // What a row says.
  ghost predicate LineOf(env: Env, row: Fields, r: Fields) {
    && FieldOf(env, row, ["item_name", "name", "description", "product_name", "item", "product"], false, r)
    && FieldOf(env, row, ["sku_code", "sku", "code", "item_code", "product_code"], false, r)
    && FieldOf(env, row, ["quantity", "qty", "quantity_received", "count", "units"], true, r)
    && FieldOf(env, row, ["unit_price", "price", "rate", "unit_cost", "cost"], true, r)
    && FieldOf(env, row, ["total_price", "total", "line_total", "amount", "subtotal"], true, r)
  }

  const NO_LINE: Fields :=
    map["item_name" := JNull, "sku_code" := JNull, "quantity" := JNull, "unit_price" := JNull, "total_price" := JNull]

  // A row that is no dictionary, or whose every field is empty.
  ghost predicate Skipped(env: Env, row: Json) {
    !row.JDict? || LineOf(env, row.entries, NO_LINE)
  }

  // The items are what the rows say, in order, without the skipped ones.
  ghost predicate LinesOf(env: Env, rows: seq<Json>, items: seq<Fields>) {
    if rows == [] then items == []
    else
      var init, row := rows[..|rows| - 1], rows[|rows| - 1];
      if Skipped(env, row) then LinesOf(env, init, items)
      else items != [] && LineOf(env, row.entries, items[|items| - 1]) && LinesOf(env, init, items[..|items| - 1])
  }

  lemma ColumnIsRead(env: Env, source: Fields, columns: seq<Column>, i: nat)
    requires i < |columns| && WellKeyed(columns)
    ensures FieldOf(env, source, columns[i].aliases, columns[i].numeric, Record(env, source, columns, |columns|))
  {
    RecordAt(env, source, columns, |columns|, i);
    CellIsRead(env, source, columns[i]);
  }

  lemma HeaderIsRead(env: Env, source: Fields)
    ensures HeaderOf(env, source, Record(env, source, HEADER_COLUMNS, |HEADER_COLUMNS|))
  {
    HeaderWellKeyed();
    ColumnIsRead(env, source, HEADER_COLUMNS, 0);
    ColumnIsRead(env, source, HEADER_COLUMNS, 1);
    ColumnIsRead(env, source, HEADER_COLUMNS, 2);
    ColumnIsRead(env, source, HEADER_COLUMNS, 3);
    ColumnIsRead(env, source, HEADER_COLUMNS, 4);
    ColumnIsRead(env, source, HEADER_COLUMNS, 5);
    ColumnIsRead(env, source, HEADER_COLUMNS, 6);
  }

  lemma LineIsRead(env: Env, row: Fields)
    ensures LineOf(env, row, RowItem(env, row, LINE_COLUMNS))
  {
    LineWellKeyed();
    ColumnIsRead(env, row, LINE_COLUMNS, 0);
    ColumnIsRead(env, row, LINE_COLUMNS, 1);
    ColumnIsRead(env, row, LINE_COLUMNS, 2);
    ColumnIsRead(env, row, LINE_COLUMNS, 3);
    ColumnIsRead(env, row, LINE_COLUMNS, 4);
  }

  lemma {:induction false} FirstOrNone(source: Fields, names: seq<string>)
    ensures (exists k :: FirstIn(source, names, k)) || (forall k :: 0 <= k < |names| ==> names[k] !in source)
  {
    if names != [] {
      var init := names[..|names| - 1];
      FirstOrNone(source, init);
      if k :| FirstIn(source, init, k) {
        assert FirstIn(source, names, k);
      } else if names[|names| - 1] in source {
        assert forall j :: 0 <= j < |init| ==> names[j] == init[j];
        assert FirstIn(source, names, |names| - 1);
      } else {
        assert forall j :: 0 <= j < |init| ==> names[j] == init[j];
      }
    }
  }

  // A field says one thing only.
  lemma ReadOnce(env: Env, source: Fields, names: seq<string>, numeric: bool, x: Json, y: Json)
    requires ReadFrom(env, source, names, numeric, x) && ReadFrom(env, source, names, numeric, y)
    ensures x == y
  {
    FirstOrNone(source, names);
    if k :| FirstIn(source, names, k) {
      assert SaidIn(env, source[names[k]], numeric, x) && SaidIn(env, source[names[k]], numeric, y);
    }
  }

  predicate HasLineKeys(r: Fields) {
    r.Keys == {"item_name", "sku_code", "quantity", "unit_price", "total_price"}
  }

  lemma LineIsNormal(env: Env, row: Fields)
    ensures NormalRecord(env, RowItem(env, row, LINE_COLUMNS), LINE_COLUMNS)
  {
    LineWellKeyed();
    RecordIsNormal(env, row, LINE_COLUMNS, |LINE_COLUMNS|);
    assert LINE_COLUMNS[..|LINE_COLUMNS|] == LINE_COLUMNS;
  }

  lemma LineKey(r: Fields, k: string)
    requires NothingElse(r, LINE_COLUMNS) && k in r
    ensures k in {"item_name", "sku_code", "quantity", "unit_price", "total_price"}
  {
    var i :| 0 <= i < |LINE_COLUMNS| && LINE_COLUMNS[i].key == k;
  }

  lemma LineKeys(env: Env, row: Fields)
    ensures HasLineKeys(RowItem(env, row, LINE_COLUMNS))
  {
    var r := RowItem(env, row, LINE_COLUMNS);
    LineIsNormal(env, row);
    forall k | k in r
      ensures k in {"item_name", "sku_code", "quantity", "unit_price", "total_price"}
    {
      LineKey(r, k);
    }
    LineIsRead(env, row);
  }

  predicate SameAt(x: Fields, y: Fields, key: string) {
    key in x && key in y && x[key] == y[key]
  }

  lemma SameAtAll(x: Fields, y: Fields)
    requires HasLineKeys(x) && HasLineKeys(y)
    requires SameAt(x, y, "item_name") && SameAt(x, y, "sku_code") && SameAt(x, y, "quantity")
    requires SameAt(x, y, "unit_price") && SameAt(x, y, "total_price")
    ensures x == y
  {
    forall k | k in x.Keys
      ensures SameAt(x, y, k)
    {
    }
  }

  lemma SameField(env: Env, row: Fields, names: seq<string>, numeric: bool, x: Fields, y: Fields)
    requires FieldOf(env, row, names, numeric, x) && FieldOf(env, row, names, numeric, y)
    ensures SameAt(x, y, names[0])
  {
    ReadOnce(env, row, names, numeric, x[names[0]], y[names[0]]);
  }

  lemma SameLine(env: Env, row: Fields, x: Fields, y: Fields)
    requires LineOf(env, row, x) && LineOf(env, row, y) && HasLineKeys(x) && HasLineKeys(y)
    ensures x == y
  {
    SameField(env, row, ["item_name", "name", "description", "product_name", "item", "product"], false, x, y);
    SameField(env, row, ["sku_code", "sku", "code", "item_code", "product_code"], false, x, y);
    SameField(env, row, ["quantity", "qty", "quantity_received", "count", "units"], true, x, y);
    SameField(env, row, ["unit_price", "price", "rate", "unit_cost", "cost"], true, x, y);
    SameField(env, row, ["total_price", "total", "line_total", "amount", "subtotal"], true, x, y);
    SameAtAll(x, y);
  }

  // A normal record is empty only when every field is.
  lemma EmptyLine(env: Env, r: Fields)
    requires HasLineKeys(r) && NormalRecord(env, r, LINE_COLUMNS)
    ensures IsEmpty(r) <==> r == NO_LINE
  {
    if IsEmpty(r) {
      forall k | k in r
        ensures r[k] == JNull
      {
        var i :| 0 <= i < |LINE_COLUMNS| && LINE_COLUMNS[i].key == k;
        assert Normal(env, LINE_COLUMNS[i].numeric, r[k]);
      }
      assert r.Keys == NO_LINE.Keys;
    }
  }

  lemma KeptUnlessSkipped(env: Env, row: Json)
    ensures Kept(env, row, LINE_COLUMNS) <==> !Skipped(env, row)
  {
    if row.JDict? {
      var r := RowItem(env, row.entries, LINE_COLUMNS);
      LineKeys(env, row.entries);
      LineIsRead(env, row.entries);
      LineIsNormal(env, row.entries);
      EmptyLine(env, r);
      if LineOf(env, row.entries, NO_LINE) {
        SameLine(env, row.entries, r, NO_LINE);
      }
    }
  }

  lemma {:induction false} LinesAreRead(env: Env, rows: seq<Json>)
    ensures LinesOf(env, rows, Items(env, rows, LINE_COLUMNS))
  {
    if rows != [] {
      var init, row := rows[..|rows| - 1], rows[|rows| - 1];
      LinesAreRead(env, init);
      KeptUnlessSkipped(env, row);
      var items, before := Items(env, rows, LINE_COLUMNS), Items(env, init, LINE_COLUMNS);
      if Skipped(env, row) {
        assert items == before;
      } else {
        LineIsRead(env, row.entries);
        assert items[..|items| - 1] == before;
      }
    }
  }

  predicate HasDict(d: Fields, key: string) {
    key in d && d[key].JDict?
  }

  predicate HasList(d: Fields, key: string) {
    key in d && d[key].JList?
  }

  predicate IsStructured(raw: Json) {
    raw.JDict? && (HasDict(raw.entries, "header") || HasList(raw.entries, "line_items"))
  }

  // The structured shape: every header field and every row is read under the first of its names.
  lemma StructuredIsRead(env: Env, raw: Json)
    requires IsStructured(raw)
    ensures HeaderOf(env, if HasDict(raw.entries, "header") then raw.entries["header"].entries else map[], Parse(env, raw).header)
    ensures LinesOf(env, if HasList(raw.entries, "line_items") then raw.entries["line_items"].items else [], Parse(env, raw).lineItems)
  {
    HeaderIsRead(env, OrElse(DictAt(raw.entries, "header"), map[]));
    LinesAreRead(env, OrElse(ListAt(raw.entries, "line_items"), []));
  }

  // Where the legacy shape keeps each column.
  predicate LegacyLineOf(env: Env, fields: Fields, line: Fields) {
    && HasLineKeys(line)
    && SaidIn(env, Get(fields, "product_name"), false, line["item_name"])
    && SaidIn(env, Get(fields, "sku_code"), false, line["sku_code"])
    && SaidIn(env, Get(fields, "quantity_received"), true, line["quantity"])
    && SaidIn(env, Get(fields, "unit_price"), true, line["unit_price"])
    && line["total_price"] == JNull
  }

  predicate LegacyHeaderOf(env: Env, fields: Fields, header: Fields) {
    && "supplier_name" in header
    && SaidIn(env, Get(fields, "supplier_name"), false, header["supplier_name"])
    && forall k :: k in header && k != "supplier_name" ==> header[k] == JNull
  }

  lemma {:induction false} BlankIsNull(columns: seq<Column>, n: nat)
    requires n <= |columns|
    ensures forall k :: k in Blank(columns, n) ==> Blank(columns, n)[k] == JNull
  {
    if n > 0 {
      BlankIsNull(columns, n - 1);
    }
  }

  lemma BlankLine()
    ensures Blank(LINE_COLUMNS, |LINE_COLUMNS|) == NO_LINE
  {
    assert Blank(LINE_COLUMNS, 0) == map[];
    assert Blank(LINE_COLUMNS, 1) == map["item_name" := JNull];
    assert Blank(LINE_COLUMNS, 2) == map["item_name" := JNull, "sku_code" := JNull];
    assert Blank(LINE_COLUMNS, 3) == map["item_name" := JNull, "sku_code" := JNull, "quantity" := JNull];
  }

  lemma LegacyLineIsRead(env: Env, fields: Fields)
    ensures LegacyLineOf(env, fields, LegacyLine(env, fields, LINE_COLUMNS))
  {
    BlankLine();
    CellIsSaid(env, Get(fields, "product_name"), false);
    CellIsSaid(env, Get(fields, "sku_code"), false);
    CellIsSaid(env, Get(fields, "quantity_received"), true);
    CellIsSaid(env, Get(fields, "unit_price"), true);
  }

  lemma LegacyHeaderIsRead(env: Env, fields: Fields)
    ensures LegacyHeaderOf(env, fields, LegacyHeader(env, fields, HEADER_COLUMNS))
  {
    BlankIsNull(HEADER_COLUMNS, |HEADER_COLUMNS|);
    CellIsSaid(env, Get(fields, "supplier_name"), false);
  }

  lemma LegacyLineEmpty(env: Env, fields: Fields)
    ensures var line := LegacyLine(env, fields, LINE_COLUMNS);
            IsEmpty(line) <==> line == NO_LINE
  {
    OwnLegacyColumns();
    LegacyLineIsNormal(env, fields, LINE_COLUMNS);
    LegacyLineIsRead(env, fields);
    EmptyLine(env, LegacyLine(env, fields, LINE_COLUMNS));
  }

  // The flat legacy shape: its five fields give the supplier and one line, or none when they say nothing.
  lemma LegacyIsRead(env: Env, raw: Json)
    requires raw.JDict? && !IsStructured(raw)
    ensures var fields := if HasDict(raw.entries, "fields") then raw.entries["fields"].entries else raw.entries;
            var x := Parse(env, raw);
            && LegacyHeaderOf(env, fields, x.header)
            && if LegacyLineOf(env, fields, NO_LINE) then x.lineItems == [] else |x.lineItems| == 1 && LegacyLineOf(env, fields, x.lineItems[0])
  {
    var fields := OrElse(DictAt(raw.entries, "fields"), raw.entries);
    LegacyHeaderIsRead(env, fields);
    LegacyLineIsRead(env, fields);
    LegacyLineEmpty(env, fields);
    if LegacyLineOf(env, fields, NO_LINE) {
      SameLegacyLine(env, fields, LegacyLine(env, fields, LINE_COLUMNS), NO_LINE);
    }
  }

  lemma SameLegacyLine(env: Env, fields: Fields, x: Fields, y: Fields)
    requires LegacyLineOf(env, fields, x) && LegacyLineOf(env, fields, y)
    ensures x == y
  {
  }

  // The confidence a wrapper carries.
  function ConfidenceIn(cell: Json): Json {
    if Wrapper(cell) && "confidence" in cell.entries then cell.entries["confidence"] else JNull
  }

  // The first of the names that is present gives the confidence, too.
  ghost predicate ConfidenceFrom(source: Fields, names: seq<string>, conf: Json) {
    && (forall k :: FirstIn(source, names, k) ==> conf == ConfidenceIn(source[names[k]]))
    && ((forall k :: 0 <= k < |names| ==> names[k] !in source) ==> conf == JNull)
  }

  lemma CellConfidenceIsRead(source: Fields, c: Column)
    ensures ConfidenceFrom(source, c.aliases, CellConfidence(source, c))
  {
    forall k | FirstIn(source, c.aliases, k)
      ensures CellConfidence(source, c) == ConfidenceIn(source[c.aliases[k]])
    {
      FirstIsPicked(source, c.aliases, k);
    }
    if forall k :: 0 <= k < |c.aliases| ==> c.aliases[k] !in source {
      NoneIsPicked(source, c.aliases);
    }
  }

  predicate NoKey(columns: seq<Column>, n: nat, key: string)
    requires n <= |columns|
  {
    forall i :: 0 <= i < n ==> columns[i].key != key
  }

  lemma {:induction false} HeaderConfidenceAt(source: Fields, columns: seq<Column>, n: nat, i: nat)
    requires i < n <= |columns| && WellKeyed(columns)
    ensures var c, conf := CellConfidence(source, columns[i]), HeaderConfidence(source, columns, n);
            if c == JNull then columns[i].key !in conf else columns[i].key in conf && conf[columns[i].key] == c
  {
    if i < n - 1 {
      HeaderConfidenceAt(source, columns, n - 1, i);
    } else {
      HeaderConfidenceElsewhere(source, columns, n - 1, columns[i].key);
    }
  }

  lemma {:induction false} HeaderConfidenceElsewhere(source: Fields, columns: seq<Column>, n: nat, key: string)
    requires n <= |columns| && NoKey(columns, n, key)
    ensures key !in HeaderConfidence(source, columns, n)
  {
    if n > 0 {
      HeaderConfidenceElsewhere(source, columns, n - 1, key);
    }
  }

  lemma NoLineItemsColumn()
    ensures NoKey(HEADER_COLUMNS, |HEADER_COLUMNS|, "line_items")
  {
    assert "line_items"[0] != "supplier_name"[0];
  }

  // A key's own confidence, otherwise whatever the invoice's confidence blob has for it.
  predicate OwnOrTop(conf: Fields, top: Fields, key: string, own: Json) {
    if own != JNull then key in conf && conf[key] == own
    else (key in conf <==> key in top) && (key in top ==> conf[key] == top[key])
  }

  function TopConfidence(raw: Fields): (top: Fields)
    ensures top == if HasDict(raw, "confidence") then raw["confidence"].entries else map[]
  {
    OrElse(DictAt(raw, "confidence"), map[])
  }

  // The confidence of one header field: the one its own cell carries, otherwise the one in the
  // invoice's confidence blob, if there is one.
  lemma HeaderConfidenceIsRead(env: Env, raw: Json, i: nat)
    requires IsStructured(raw) && i < |HEADER_COLUMNS|
    ensures var header := if HasDict(raw.entries, "header") then raw.entries["header"].entries else map[];
            var own := CellConfidence(header, HEADER_COLUMNS[i]);
            && ConfidenceFrom(header, HEADER_COLUMNS[i].aliases, own)
            && OwnOrTop(Parse(env, raw).confidence, TopConfidence(raw.entries), HEADER_COLUMNS[i].key, own)
  {
    var header := OrElse(DictAt(raw.entries, "header"), map[]);
    var rows := OrElse(ListAt(raw.entries, "line_items"), []);
    CellConfidenceIsRead(header, HEADER_COLUMNS[i]);
    HeaderWellKeyed();
    HeaderConfidenceAt(header, HEADER_COLUMNS, |HEADER_COLUMNS|, i);
    NoLineItemsColumn();
    assert LineConfidence(env, rows, LINE_COLUMNS).Keys <= {"line_items"};
  }

  // The confidence of the lines: the mean of the means of the rows that carry a numeric one.
  lemma LineConfidenceIsMean(env: Env, raw: Json)
    requires IsStructured(raw)
    ensures var rows := if HasList(raw.entries, "line_items") then raw.entries["line_items"].items else [];
            var means, conf := Means(env, rows, LINE_COLUMNS), Parse(env, raw).confidence;
            if means == [] then OwnOrTop(conf, TopConfidence(raw.entries), "line_items", JNull)
            else "line_items" in conf && conf["line_items"].JNum? && MeanOf(means, conf["line_items"].n)
  {
    var header := OrElse(DictAt(raw.entries, "header"), map[]);
    var rows := OrElse(ListAt(raw.entries, "line_items"), []);
    NoLineItemsColumn();
    HeaderConfidenceElsewhere(header, HEADER_COLUMNS, |HEADER_COLUMNS|, "line_items");
    if Means(env, rows, LINE_COLUMNS) != [] {
      MeanIsMean(Means(env, rows, LINE_COLUMNS));
    }
  }

  // No other key is touched.
  lemma OtherConfidencesKept(env: Env, raw: Json, key: string)
    requires IsStructured(raw) && key != "line_items" && NoKey(HEADER_COLUMNS, |HEADER_COLUMNS|, key)
    ensures OwnOrTop(Parse(env, raw).confidence, TopConfidence(raw.entries), key, JNull)
  {
    HeaderConfidenceElsewhere(OrElse(DictAt(raw.entries, "header"), map[]), HEADER_COLUMNS, |HEADER_COLUMNS|, key);
    assert LineConfidence(env, OrElse(ListAt(raw.entries, "line_items"), []), LINE_COLUMNS).Keys <= {"line_items"};
  }

  lemma {:induction false} LegacyConfidenceAt(fields: Fields, top: Fields, names: seq<string>, n: nat, f: string)
    requires n <= |names| && Distinct(names)
    ensures var own := if f in names[..n] then ConfidenceIn(Get(fields, f)) else JNull;
            OwnOrTop(top + LegacyConfidence(fields, top, names, n), top, f, own)
  {
    if n > 0 {
      LegacyConfidenceAt(fields, top, names, n - 1, f);
      assert names[..n] == names[..n - 1] + [names[n - 1]];
    }
  }

  lemma LegacyFieldsDistinct()
    ensures Distinct(LEGACY_FIELDS)
  {
    assert "product_name"[0] != "quantity_received"[0];
  }

  // In the legacy shape the five fields may carry their own confidence; every other key is kept.
  lemma LegacyConfidenceIsRead(env: Env, raw: Json, f: string)
    requires raw.JDict? && !IsStructured(raw)
    ensures var fields := if HasDict(raw.entries, "fields") then raw.entries["fields"].entries else raw.entries;
            var own := if f in ["product_name", "sku_code", "quantity_received", "unit_price", "supplier_name"]
                       then ConfidenceIn(Get(fields, f)) else JNull;
            OwnOrTop(Parse(env, raw).confidence, TopConfidence(raw.entries), f, own)
  {
    var fields, top := OrElse(DictAt(raw.entries, "fields"), raw.entries), TopConfidence(raw.entries);
    LegacyFieldsDistinct();
    LegacyConfidenceAt(fields, top, LEGACY_FIELDS, |LEGACY_FIELDS|, f);
    assert LEGACY_FIELDS[..|LEGACY_FIELDS|] == LEGACY_FIELDS;
  }

  // A confidence counts when it is, or reads as, a number.
  predicate ScoreOf(env: Env, conf: Json, s: seq<real>) {
    if s == [] then SaidNumber(env, conf, JNull) else |s| == 1 && SaidNumber(env, conf, JNum(s[0]))
  }

  lemma ScoredAsSaid(env: Env, conf: Json)
    ensures ScoreOf(env, conf, Scored(env, conf))
  {
    NumberIsSaid(env, conf);
  }

  function CellScore(env: Env, row: Fields, i: nat): (s: seq<real>)
    requires i < |LINE_COLUMNS|
    ensures ScoreOf(env, CellConfidence(row, LINE_COLUMNS[i]), s)
  {
    ScoredAsSaid(env, CellConfidence(row, LINE_COLUMNS[i]));
    Scored(env, CellConfidence(row, LINE_COLUMNS[i]))
  }

  lemma RowScoresAre(env: Env, row: Fields)
    ensures RowScores(env, row, LINE_COLUMNS, |LINE_COLUMNS|)
         == CellScore(env, row, 0) + CellScore(env, row, 1) + CellScore(env, row, 2) + CellScore(env, row, 3) + CellScore(env, row, 4)
  {
    assert RowScores(env, row, LINE_COLUMNS, 0) == [];
    assert RowScores(env, row, LINE_COLUMNS, 1) == [] + CellScore(env, row, 0) == CellScore(env, row, 0);
    assert RowScores(env, row, LINE_COLUMNS, 2) == CellScore(env, row, 0) + CellScore(env, row, 1);
    assert RowScores(env, row, LINE_COLUMNS, 3) == CellScore(env, row, 0) + CellScore(env, row, 1) + CellScore(env, row, 2);
    assert RowScores(env, row, LINE_COLUMNS, 4)
        == CellScore(env, row, 0) + CellScore(env, row, 1) + CellScore(env, row, 2) + CellScore(env, row, 3);
  }

  // The mean of one row is taken over the scores of its five cells and its own; a skipped row has none.
  lemma RowMeanIsRead(env: Env, row: Json)
    ensures Skipped(env, row) ==> RowMean(env, row, LINE_COLUMNS) == []
    ensures !Skipped(env, row) ==>
              var s := CellScore(env, row.entries, 0) + CellScore(env, row.entries, 1) + CellScore(env, row.entries, 2)
                     + CellScore(env, row.entries, 3) + CellScore(env, row.entries, 4) + Scored(env, Get(row.entries, "confidence"));
              var m := RowMean(env, row, LINE_COLUMNS);
              if s == [] then m == [] else |m| == 1 && MeanOf(s, m[0])
  {
    KeptUnlessSkipped(env, row);
    if !Skipped(env, row) {
      RowScoresAre(env, row.entries);
      if AllScores(env, row.entries, LINE_COLUMNS) != [] {
        MeanIsMean(AllScores(env, row.entries, LINE_COLUMNS));
      }
    }
  }

  // ----- Parsing a dump -----

  // What a stored cell looks like: nothing, a trimmed non-empty text, or a number in a numeric column.
  predicate Normal(env: Env, numeric: bool, v: Json) {
    v == JNull || (if numeric then v.JNum? else v.JStr? && v.s != "" && Strip(env, v.s) == v.s)
  }

  // A record whose every column holds a normal cell, and nothing else.
  predicate NormalRecord(env: Env, r: Fields, columns: seq<Column>) {
    NormalColumns(env, r, columns) && NothingElse(r, columns)
  }

  predicate NormalColumns(env: Env, r: Fields, columns: seq<Column>) {
    forall i :: 0 <= i < |columns| ==> columns[i].key in r && Normal(env, columns[i].numeric, r[columns[i].key])
  }

  predicate NothingElse(r: Fields, columns: seq<Column>) {
    forall k :: k in r ==> exists i :: 0 <= i < |columns| && columns[i].key == k
  }

  // Every column's own name is its first alias, and no two columns share a name.
  predicate WellKeyed(columns: seq<Column>) {
    && (forall i :: 0 <= i < |columns| ==> columns[i].aliases != [] && columns[i].aliases[0] == columns[i].key)
    && (forall i, j :: 0 <= i < j < |columns| ==> columns[i].key != columns[j].key)
  }

  lemma HeaderWellKeyed()
    ensures WellKeyed(HEADER_COLUMNS)
  {
    assert "supplier_name"[0] != "invoice_total"[0];
    assert "due_date"[0] != "currency"[0];
  }

  lemma LineWellKeyed()
    ensures WellKeyed(LINE_COLUMNS) && NoConfidenceColumn(LINE_COLUMNS)
  {
    assert "sku_code"[0] != "quantity"[0];
    assert "unit_price"[0] != "confidence"[0];
  }

  // A row's own "confidence" entry is not one of its columns.
  predicate NoConfidenceColumn(columns: seq<Column>) {
    forall i :: 0 <= i < |columns| ==> columns[i].key != "confidence"
  }

  lemma CleanIsNormal(env: Env, v: Json)
    ensures Normal(env, false, CleanStr(env, v)) && Normal(env, true, CoerceNumber(env, v))
  {
    StripTrims(env, Text(env, v));
  }

  // A normal cell is read back unchanged and carries no confidence.
  lemma NormalIsStable(env: Env, numeric: bool, v: Json)
    requires Normal(env, numeric, v)
    ensures Unwrap(v) == (v, JNull)
    ensures (if numeric then CoerceNumber(env, v) else CleanStr(env, v)) == v
  {
  }

  // One more column with a normal cell.
  lemma NormalExtended(env: Env, r: Fields, columns: seq<Column>, n: nat, v: Json)
    requires 0 < n <= |columns| && WellKeyed(columns)
    requires NormalRecord(env, r, columns[..n - 1]) && Normal(env, columns[n - 1].numeric, v)
    ensures NormalRecord(env, r[columns[n - 1].key := v], columns[..n])
  {
    var key, before, after := columns[n - 1].key, columns[..n - 1], columns[..n];
    assert after[n - 1].key == key;
    forall i | 0 <= i < n - 1
      ensures after[i] == before[i] && before[i].key != key
    {
    }
    var q := r[key := v];
    forall k | k in q
      ensures exists i :: 0 <= i < n && after[i].key == k
    {
      if k != key {
        var i :| 0 <= i < n - 1 && before[i].key == k;
        assert after[i].key == k;
      }
    }
  }

  lemma {:induction false} RecordIsNormal(env: Env, source: Fields, columns: seq<Column>, n: nat)
    requires n <= |columns| && WellKeyed(columns)
    ensures NormalRecord(env, Record(env, source, columns, n), columns[..n])
  {
    if n > 0 {
      RecordIsNormal(env, source, columns, n - 1);
      CleanIsNormal(env, Unwrap(Pick(source, columns[n - 1].aliases)).0);
      NormalExtended(env, Record(env, source, columns, n - 1), columns, n, Cell(env, source, columns[n - 1]));
    }
  }

  lemma {:induction false} BlankIsNormal(env: Env, columns: seq<Column>, n: nat)
    requires n <= |columns| && WellKeyed(columns)
    ensures NormalRecord(env, Blank(columns, n), columns[..n])
  {
    if n > 0 {
      BlankIsNormal(env, columns, n - 1);
      NormalExtended(env, Blank(columns, n - 1), columns, n, JNull);
    }
  }

  // A normal record's own column is found first and read back unchanged.
  lemma ReadBackCell(env: Env, r: Fields, columns: seq<Column>, i: nat)
    requires i < |columns| && WellKeyed(columns) && NormalColumns(env, r, columns)
    ensures columns[i].key in r
    ensures Cell(env, r, columns[i]) == r[columns[i].key] && CellConfidence(r, columns[i]) == JNull
  {
    var c := columns[i];
    assert Pick(r, c.aliases) == r[c.key];
    NormalIsStable(env, c.numeric, r[c.key]);
  }

  predicate SubRecord(q: Fields, r: Fields) {
    forall k :: k in q ==> k in r && q[k] == r[k]
  }

  lemma SubRecordNext(env: Env, r: Fields, columns: seq<Column>, n: nat)
    requires 0 < n <= |columns| && columns[n - 1].key in r
    requires SubRecord(Record(env, r, columns, n - 1), r) && Cell(env, r, columns[n - 1]) == r[columns[n - 1].key]
    ensures SubRecord(Record(env, r, columns, n), r)
  {
  }

  // Reading back a normal record, column by column.
  lemma {:induction false} ReadBackColumns(env: Env, r: Fields, columns: seq<Column>, n: nat)
    requires n <= |columns| && WellKeyed(columns) && NormalColumns(env, r, columns)
    ensures SubRecord(Record(env, r, columns, n), r)
  {
    if n > 0 {
      ReadBackColumns(env, r, columns, n - 1);
      ReadBackCell(env, r, columns, n - 1);
      SubRecordNext(env, r, columns, n);
    }
  }

  lemma {:induction false} RecordHasColumns(env: Env, source: Fields, columns: seq<Column>, n: nat, i: nat)
    requires i < n <= |columns|
    ensures columns[i].key in Record(env, source, columns, n)
  {
    if i < n - 1 {
      RecordHasColumns(env, source, columns, n - 1, i);
    }
  }

  lemma {:induction false} NoConfidences(env: Env, r: Fields, columns: seq<Column>, n: nat)
    requires n <= |columns| && WellKeyed(columns) && NormalColumns(env, r, columns)
    ensures HeaderConfidence(r, columns, n) == map[]
    ensures RowScores(env, r, columns, n) == []
  {
    if n > 0 {
      NoConfidences(env, r, columns, n - 1);
      ReadBackCell(env, r, columns, n - 1);
    }
  }

  lemma ReadBackRecord(env: Env, r: Fields, columns: seq<Column>)
    requires WellKeyed(columns) && NormalRecord(env, r, columns)
    ensures Record(env, r, columns, |columns|) == r
  {
    var q := Record(env, r, columns, |columns|);
    ReadBackColumns(env, r, columns, |columns|);
    forall k | k in r
      ensures k in q
    {
      var i :| 0 <= i < |columns| && columns[i].key == k;
      RecordHasColumns(env, r, columns, |columns|, i);
    }
    SameRecord(q, r);
  }

  lemma SameRecord(q: Fields, r: Fields)
    requires SubRecord(q, r) && forall k :: k in r ==> k in q
    ensures q == r
  {
    assert q.Keys == r.Keys;
  }

  lemma ReadBack(env: Env, r: Fields, columns: seq<Column>)
    requires WellKeyed(columns) && NormalRecord(env, r, columns)
    ensures Record(env, r, columns, |columns|) == r
    ensures HeaderConfidence(r, columns, |columns|) == map[]
    ensures RowScores(env, r, columns, |columns|) == []
  {
    ReadBackRecord(env, r, columns);
    NoConfidences(env, r, columns, |columns|);
  }

  // A dumped line item is read back as itself and has no score.
  lemma ReadBackRow(env: Env, r: Fields, columns: seq<Column>)
    requires WellKeyed(columns) && NoConfidenceColumn(columns)
    requires NormalRecord(env, r, columns) && !IsEmpty(r)
    ensures RowItems(env, JDict(r), columns) == [r] && RowMean(env, JDict(r), columns) == []
  {
    ReadBack(env, r, columns);
    assert Get(r, "confidence") == JNull;
  }

  function Rows(items: seq<Fields>): seq<Json> {
    seq(|items|, i requires 0 <= i < |items| => JDict(items[i]))
  }

  ghost predicate NormalItems(env: Env, items: seq<Fields>, columns: seq<Column>) {
    forall k :: 0 <= k < |items| ==> NormalRecord(env, items[k], columns) && !IsEmpty(items[k])
  }

  lemma RowsAppend(items: seq<Fields>, r: Fields)
    ensures Rows(items + [r]) == Rows(items) + [JDict(r)]
  {
  }

  lemma {:induction false} ReadBackRows(env: Env, items: seq<Fields>, columns: seq<Column>)
    requires NormalItems(env, items, columns) && WellKeyed(columns) && NoConfidenceColumn(columns)
    ensures Items(env, Rows(items), columns) == items && Means(env, Rows(items), columns) == []
  {
    if items != [] {
      var init, last := items[..|items| - 1], items[|items| - 1];
      assert items == init + [last];
      RowsAppend(init, last);
      ReadBackRow(env, last, columns);
      ReadBackRows(env, init, columns);
      ItemsAppend(env, Rows(init), JDict(last), columns);
      assert Rows(items) == Rows(init) + [JDict(last)];
    }
  }

  lemma {:induction false} ItemsAreNormal(env: Env, rows: seq<Json>, columns: seq<Column>)
    requires WellKeyed(columns)
    ensures NormalItems(env, Items(env, rows, columns), columns)
  {
    if rows != [] {
      var row := rows[|rows| - 1];
      ItemsAreNormal(env, rows[..|rows| - 1], columns);
      if row.JDict? {
        RecordIsNormal(env, row.entries, columns, |columns|);
        assert columns[..|columns|] == columns;
      }
    }
  }

  ghost predicate NormalBy(env: Env, x: Extraction, columns: seq<Column>, lineColumns: seq<Column>) {
    NormalRecord(env, x.header, columns) && NormalItems(env, x.lineItems, lineColumns)
  }

  ghost predicate NormalExtraction(env: Env, x: Extraction) {
    NormalBy(env, x, HEADER_COLUMNS, LINE_COLUMNS)
  }

  // Overwriting a column with a normal cell keeps a record normal.
  lemma NormalUpdate(env: Env, r: Fields, columns: seq<Column>, i: nat, v: Json)
    requires NormalRecord(env, r, columns) && WellKeyed(columns)
    requires i < |columns| && Normal(env, columns[i].numeric, v)
    ensures NormalRecord(env, r[columns[i].key := v], columns)
  {
    var q := r[columns[i].key := v];
    forall k | k in q
      ensures exists j :: 0 <= j < |columns| && columns[j].key == k
    {
      assert k == columns[i].key || k in r;
    }
  }

  lemma BlankRecordIsNormal(env: Env, columns: seq<Column>)
    requires WellKeyed(columns)
    ensures NormalRecord(env, Blank(columns, |columns|), columns)
  {
    BlankIsNormal(env, columns, |columns|);
    assert columns[..|columns|] == columns;
  }

  predicate HasColumn(columns: seq<Column>, i: nat, key: string, numeric: bool) {
    i < |columns| && columns[i].key == key && columns[i].numeric == numeric
  }

  // The columns the legacy shape fills.
  predicate LegacyColumns(columns: seq<Column>, lineColumns: seq<Column>) {
    WellKeyed(columns) && HasColumn(columns, 0, "supplier_name", false) && LegacyLineColumns(lineColumns)
  }

  predicate LegacyLineColumns(columns: seq<Column>) {
    && WellKeyed(columns)
    && HasColumn(columns, 0, "item_name", false) && HasColumn(columns, 1, "sku_code", false)
    && HasColumn(columns, 2, "quantity", true) && HasColumn(columns, 3, "unit_price", true)
  }

  lemma OwnLegacyColumns()
    ensures LegacyColumns(HEADER_COLUMNS, LINE_COLUMNS)
  {
    HeaderWellKeyed();
    LineWellKeyed();
  }

  lemma LegacyHeaderIsNormal(env: Env, fields: Fields, columns: seq<Column>)
    requires WellKeyed(columns) && HasColumn(columns, 0, "supplier_name", false)
    ensures NormalRecord(env, LegacyHeader(env, fields, columns), columns)
  {
    BlankRecordIsNormal(env, columns);
    CleanIsNormal(env, LegacyValue(fields, "supplier_name"));
    NormalUpdate(env, Blank(columns, |columns|), columns, 0, CleanStr(env, LegacyValue(fields, "supplier_name")));
  }

  // Filling one column with whatever the legacy shape has for it.
  lemma LegacyUpdate(env: Env, r: Fields, columns: seq<Column>, i: nat, key: string, numeric: bool, raw: Json)
    requires NormalRecord(env, r, columns) && WellKeyed(columns) && HasColumn(columns, i, key, numeric)
    ensures NormalRecord(env, r[key := if numeric then CoerceNumber(env, raw) else CleanStr(env, raw)], columns)
  {
    CleanIsNormal(env, raw);
    NormalUpdate(env, r, columns, i, if numeric then CoerceNumber(env, raw) else CleanStr(env, raw));
  }

  lemma LegacyLineIsNormal(env: Env, fields: Fields, columns: seq<Column>)
    requires LegacyLineColumns(columns)
    ensures NormalRecord(env, LegacyLine(env, fields, columns), columns)
  {
    BlankRecordIsNormal(env, columns);
    var r0 := Blank(columns, |columns|);
    var product, code := LegacyValue(fields, "product_name"), LegacyValue(fields, "sku_code");
    LegacyUpdate(env, r0, columns, 0, "item_name", false, product);
    var r1 := r0["item_name" := CleanStr(env, product)];
    LegacyUpdate(env, r1, columns, 1, "sku_code", false, code);
    var r2 := r1["sku_code" := CleanStr(env, code)];
    LegacyUpdate(env, r2, columns, 2, "quantity", true, LegacyValue(fields, "quantity_received"));
    var r3 := r2["quantity" := CoerceNumber(env, LegacyValue(fields, "quantity_received"))];
    LegacyUpdate(env, r3, columns, 3, "unit_price", true, LegacyValue(fields, "unit_price"));
  }

  lemma LegacyIsNormal(env: Env, fields: Fields, blob: Fields, columns: seq<Column>, lineColumns: seq<Column>)
    requires LegacyColumns(columns, lineColumns)
    ensures NormalBy(env, LegacyBy(env, fields, blob, columns, lineColumns), columns, lineColumns)
  {
    LegacyHeaderIsNormal(env, fields, columns);
    LegacyLineIsNormal(env, fields, lineColumns);
  }

  // Everything the parser stores is in normal form, whatever it was given.
  lemma ParseIsNormal(env: Env, raw: Json)
    ensures NormalExtraction(env, Parse(env, raw))
  {
    if !raw.JDict? {
      HeaderWellKeyed();
      BlankRecordIsNormal(env, HEADER_COLUMNS);
    } else {
      var header, rows := DictAt(raw.entries, "header"), ListAt(raw.entries, "line_items");
      if header.Some? || rows.Some? {
        StructuredIsNormal(env, OrElse(header, map[]), OrElse(rows, []));
      } else {
        OwnLegacyColumns();
        LegacyIsNormal(env, OrElse(DictAt(raw.entries, "fields"), raw.entries), OrElse(DictAt(raw.entries, "confidence"), map[]),
                       HEADER_COLUMNS, LINE_COLUMNS);
      }
    }
  }

  lemma StructuredIsNormal(env: Env, header: Fields, rows: seq<Json>)
    ensures NormalExtraction(env, Structured(env, header, rows))
  {
    HeaderWellKeyed();
    LineWellKeyed();
    RecordIsNormal(env, header, HEADER_COLUMNS, |HEADER_COLUMNS|);
    assert HEADER_COLUMNS[..|HEADER_COLUMNS|] == HEADER_COLUMNS;
    ItemsAreNormal(env, rows, LINE_COLUMNS);
  }

  lemma DumpParts(x: Extraction)
    ensures var d := Dump(x).entries;
            && DictAt(d, "header") == Some(x.header)
            && ListAt(d, "line_items") == Some(Rows(x.lineItems))
            && DictAt(d, "confidence") == Some(x.confidence)
  {
    assert "line_items"[0] != "confidence"[0];
    assert |"header"| != |"confidence"| && |"header"| != |"line_items"|;
    var d := Dump(x).entries;
    assert d["line_items"].items == Rows(x.lineItems);
  }

  // Reading back the parts of a normal extraction finds the same parts and no confidence.
  lemma ReadBackParts(env: Env, x: Extraction, columns: seq<Column>, lineColumns: seq<Column>)
    requires WellKeyed(columns) && WellKeyed(lineColumns) && NoConfidenceColumn(lineColumns)
    requires NormalBy(env, x, columns, lineColumns)
    ensures StructuredBy(env, x.header, Rows(x.lineItems), columns, lineColumns) == x.(confidence := map[])
  {
    ReadBack(env, x.header, columns);
    ReadBackRows(env, x.lineItems, lineColumns);
  }

  // A dump is read as the structured shape, and its confidence map is kept.
  lemma ParseDump(env: Env, x: Extraction)
    ensures var y := Structured(env, x.header, Rows(x.lineItems));
            Parse(env, Dump(x)) == y.(confidence := x.confidence + y.confidence)
  {
    DumpParts(x);
  }

  lemma ReadBackOwnParts(env: Env, x: Extraction)
    requires NormalExtraction(env, x)
    ensures Structured(env, x.header, Rows(x.lineItems)) == x.(confidence := map[])
  {
    HeaderWellKeyed();
    LineWellKeyed();
    ReadBackParts(env, x, HEADER_COLUMNS, LINE_COLUMNS);
  }

  lemma ConfidenceKept(x: Extraction, y: Extraction)
    requires y == x.(confidence := map[])
    ensures y.(confidence := x.confidence + y.confidence) == x
  {
    assert x.confidence + map[] == x.confidence;
  }

  lemma ReadBackExtraction(env: Env, x: Extraction)
    requires NormalExtraction(env, x)
    ensures Parse(env, Dump(x)) == x
  {
    ParseDump(env, x);
    ReadBackOwnParts(env, x);
    ConfidenceKept(x, Structured(env, x.header, Rows(x.lineItems)));
  }

  // For every JSON value: parsing the dump of what the parser made of it gives the same header, the
  // same line items and the same confidence map.
  lemma DumpParsesBack(env: Env, raw: Json)
    ensures Parse(env, Dump(Parse(env, raw))) == Parse(env, raw)
  {
    ParseIsNormal(env, raw);
    ReadBackExtraction(env, Parse(env, raw));
  }

  // A value is its own dump's parse exactly when it is in normal form: nothing the parser could not
  // have produced survives the trip.
  lemma SurvivesIffNormal(env: Env, x: Extraction)
    ensures Parse(env, Dump(x)) == x <==> NormalExtraction(env, x)
  {
    ParseIsNormal(env, Dump(x));
    if NormalExtraction(env, x) {
      ReadBackExtraction(env, x);
    }
  }
}
