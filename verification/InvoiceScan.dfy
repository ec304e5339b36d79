// Invoice scans: extraction, confirmation, rejection (InvoiceScanService in
// apps/ingestion/services.py) and their effect on stock over whole runs.
module InvoiceScan {
  import opened Sequences
  import opened Wrappers
  import opened Json
  import opened Inventory
  import InvoiceParser

  datatype ScanStatus = Pending | Extracted | Partial | ScanFailed | Confirmed | RejectedScan

  // `receipts` is the inventory result stored inside the confirmed data.
  datatype Scan = Scan(
    owner: int,
    status: ScanStatus,
    isConfirmed: bool,
    extracted: Fields,
    missing: seq<string>,
    failureReason: string,
    confirmedData: Fields,
    receipts: seq<Receipt>,
    confirmedAt: Option<int>,
    rejectedAt: Option<int>)

  datatype ScanError =
    | NoSuchScan | NotOwner | AlreadyConfirmed | ScanInvalid | InventoryFault(fault: Fault)
    | ExtractionTimeout | ExtractionMalformed | QuotaExhausted | ExtractionError
    | NotStored

  // What the vision model answers.
  datatype Extraction =
    | TimedOut(detail: string) | Malformed(detail: string) | OutOfQuota(detail: string) | OtherFailure
    | Answer(raw: Json)

  const REQUIRED_FIELDS: seq<string> := ["product_name", "sku_code", "quantity_received", "unit_price", "supplier_name"]
  const LINE_REQUIRED: seq<string> := ["item_name", "sku_code", "quantity"]

  const NOT_AN_OBJECT := "Vision response was not a JSON object."
  const MISSING_FIELDS := "missing required fields"

  datatype World = World(tables: Tables, scans: seq<Scan>)

  // ----- Specification -----

  // The required fields a dictionary lacks, in order.
  function Missing(data: Fields, required: seq<string>): seq<string> {
    if required == [] then []
    else (if Truthy(Get(data, required[0])) then [] else [required[0]]) + Missing(data, required[1..])
  }

  // `_normalize_extraction`: the header, the line items and the mirror of the first line.
  function Normalized(env: Env, raw: Json): Fields {
    StoredData(InvoiceParser.Parse(env, raw))
  }

  function StoredData(x: InvoiceParser.Extraction): Fields {
    var first := if x.lineItems == [] then map[] else x.lineItems[0];
    x.header + map[
      "line_items" := JList(InvoiceParser.Rows(x.lineItems)),
      "product_name" := Get(first, "item_name"),
      "sku_code" := Get(first, "sku_code"),
      "quantity_received" := Get(first, "quantity"),
      "unit_price" := Get(first, "unit_price")]
  }

  function Fresh(owner: int): Scan {
    Scan(owner, Pending, false, map[], [], "", map[], [], None, None)
  }

  function FailedScan(s: Scan, detail: string): Scan {
    s.(status := ScanFailed, missing := REQUIRED_FIELDS, failureReason := detail)
  }

  // `scan_invoice`: the stored scan, and the error raised to the caller if any.
  function Scanned(env: Env, owner: int, e: Extraction): (Scan, Option<ScanError>) {
    match e
    case TimedOut(detail) => (FailedScan(Fresh(owner), detail), Some(ExtractionTimeout))
    case Malformed(detail) => (FailedScan(Fresh(owner), detail), Some(ExtractionMalformed))
    case OutOfQuota(detail) => (FailedScan(Fresh(owner), detail), Some(QuotaExhausted))
    case OtherFailure => (Fresh(owner), Some(ExtractionError))
    case Answer(raw) =>
      if !raw.JDict? then (FailedScan(Fresh(owner), NOT_AN_OBJECT), Some(ExtractionMalformed))
      else
        (ExtractedScan(owner, Normalized(env, raw)), None)
  }

  function ExtractedScan(owner: int, data: Fields): Scan {
    var missing := Missing(data, REQUIRED_FIELDS);
    Fresh(owner).(status := if missing == [] then Extracted else Partial, extracted := data, missing := missing,
                  failureReason := if missing == [] then "" else MISSING_FIELDS)
  }

  predicate LinesComplete(rows: seq<Json>) {
    forall i :: 0 <= i < |rows| ==> rows[i].JDict? && Missing(rows[i].entries, LINE_REQUIRED) == []
  }

  function Dicts(rows: seq<Json>): seq<Fields>
    requires forall i :: 0 <= i < |rows| ==> rows[i].JDict?
  {
    seq(|rows|, i requires 0 <= i < |rows| => rows[i].entries)
  }

  // What confirming does to stock: the new tables and the receipts, or the error.
  function Booked(env: Env, t: Tables, data: Fields): Result<(Tables, seq<Receipt>), ScanError> {
    var rows := Get(data, "line_items");
    if rows.JList? && rows.items != [] then
      if !Truthy(Get(data, "supplier_name")) || !LinesComplete(rows.items) then Err(ScanInvalid)
      else
        var b := ApplyBatch(t, Entries(env, data, Dicts(rows.items)));
        if b.Err? then Err(InventoryFault(b.error)) else Ok((b.value.tables, b.value.lines))
    else if Missing(data, REQUIRED_FIELDS) != [] then Err(ScanInvalid)
    else
      var r := ApplyInvoice(env, t, data);
      if r.Err? then Err(InventoryFault(r.error)) else Ok((r.value.0, [r.value.1]))
  }

  // `stored`: the write of the confirmed scan succeeds.  It comes after the transaction that books
  // the stock, so a booking whose scan is not stored stays in the tables.
  datatype Op =
    | ScanInvoice(owner: int, extraction: Extraction)
    | ConfirmScan(id: nat, user: int, data: Fields, now: int, stored: bool)
    | RejectScan(id: nat, user: int, now: int)
    | AdjustStock(code: string, delta: int)

  type Outcome = Result<World, ScanError>

  function Confirmable(w: World, id: nat, user: int): Option<ScanError> {
    if id >= |w.scans| then Some(NoSuchScan)
    else if w.scans[id].owner != user then Some(NotOwner)
    else if w.scans[id].isConfirmed || w.scans[id].status == Confirmed then Some(AlreadyConfirmed)
    else if w.scans[id].status == RejectedScan then Some(ScanInvalid)
    else None
  }

  function Perform(env: Env, w: World, op: Op): Outcome {
    match op
    case ScanInvoice(owner, extraction) =>
      var (scan, error) := Scanned(env, owner, extraction);
      Ok(w.(scans := w.scans + [scan]))
    case ConfirmScan(id, user, data, now, stored) =>
      var refused := Confirmable(w, id, user);
      if refused.Some? then Err(refused.value)
      else
        var booked := Booked(env, w.tables, data);
        if booked.Err? then Err(booked.error)
        else if !stored then Err(NotStored)
        else Ok(World(booked.value.0, w.scans[id := ConfirmedScan(w.scans[id], data, booked.value.1, now)]))
    case RejectScan(id, user, now) =>
      if id >= |w.scans| then Err(NoSuchScan)
      else if w.scans[id].owner != user then Err(NotOwner)
      else if w.scans[id].isConfirmed || w.scans[id].status == Confirmed then Err(AlreadyConfirmed)
      else Ok(w.(scans := w.scans[id := RejectedAt(w.scans[id], now)]))
    case AdjustStock(code, delta) =>
      var r := Adjust(w.tables, code, delta);
      if r.Err? then Err(InventoryFault(r.error)) else Ok(w.(tables := r.value))
  }

  function ConfirmedScan(s: Scan, data: Fields, receipts: seq<Receipt>, now: int): Scan {
    s.(status := Confirmed, isConfirmed := true, confirmedData := data, receipts := receipts, confirmedAt := Some(now))
  }

  function RejectedAt(s: Scan, now: int): Scan {
    s.(status := RejectedScan, rejectedAt := Some(now))
  }

  // The confirmation books its lines.
  predicate Books(env: Env, w: World, op: Op) {
    op.ConfirmScan? && Confirmable(w, op.id, op.user).None? && Booked(env, w.tables, op.data).Ok?
  }

  // A call that raises leaves the world as it was, except for a booking whose scan is not stored.
  function Step(env: Env, w: World, op: Op): World {
    if Books(env, w, op) && !op.stored then w.(tables := Booked(env, w.tables, op.data).value.0)
    else
      var r := Perform(env, w, op);
      if r.Ok? then r.value else w
  }

  // ----- The service -----

  class InvoiceScanService {
    const inventory: InventoryService
    var scans: seq<Scan>

    constructor (inventory: InventoryService)
      ensures this.inventory == inventory && scans == []
    {
      this.inventory := inventory;
      scans := [];
    }

    function State(): World
      reads this, inventory
    {
      World(inventory.State(), scans)
    }

    // The outcome is the one `Perform` gives, the new state the one `Step` gives.
    ghost predicate Performed(env: Env, before: World, op: Op, error: Option<ScanError>)
      reads this, inventory
    {
      && State() == Step(env, before, op)
      && match Perform(env, before, op)
         case Ok(_) => error == None
         case Err(e) => error == Some(e)
    }

    method Scan(env: Env, owner: int, extraction: Extraction) returns (error: Option<ScanError>)
      modifies this
      ensures scans == old(scans) + [Scanned(env, owner, extraction).0]
      ensures error == Scanned(env, owner, extraction).1
    {
      var id := |scans|;
      scans := scans + [Fresh(owner)];
      match extraction {
        case TimedOut(detail) =>
          MarkFailed(id, detail);
          return Some(ExtractionTimeout);
        case Malformed(detail) =>
          MarkFailed(id, detail);
          return Some(ExtractionMalformed);
        case OutOfQuota(detail) =>
          MarkFailed(id, detail);
          return Some(QuotaExhausted);
        case OtherFailure =>
          return Some(ExtractionError);
        case Answer(raw) =>
          if !raw.JDict? {
            MarkFailed(id, NOT_AN_OBJECT);
            return Some(ExtractionMalformed);
          }
          var data := Normalized(env, raw);
          var missing := Missing(data, REQUIRED_FIELDS);
          var status := if missing == [] then Extracted else Partial;
          var reason := if missing == [] then "" else MISSING_FIELDS;
          scans := scans[id := scans[id].(status := status, extracted := data, missing := missing, failureReason := reason)];
          error := None;
      }
    }

    method MarkFailed(id: nat, detail: string)
      requires id < |scans|
      modifies this
      ensures scans == old(scans)[id := FailedScan(old(scans)[id], detail)]
    {
      scans := scans[id := scans[id].(status := ScanFailed, failureReason := detail, missing := REQUIRED_FIELDS)];
    }

    method Confirm(env: Env, id: nat, user: int, data: Fields, now: int, stored: bool) returns (error: Option<ScanError>)
      modifies this, inventory
      ensures Performed(env, old(State()), ConfirmScan(id, user, data, now, stored), error)
    {
      if id >= |scans| {
        return Some(NoSuchScan);
      }
      if scans[id].owner != user {
        return Some(NotOwner);
      }
      if scans[id].isConfirmed || scans[id].status == Confirmed {
        return Some(AlreadyConfirmed);
      }
      if scans[id].status == RejectedScan {
        return Some(ScanInvalid);
      }
      var booked := Book(env, data);
      if booked.Err? {
        return Some(booked.error);
      }
      if !stored {
        return Some(NotStored);
      }
      var scan := scans[id].(status := Confirmed, confirmedData := data, receipts := booked.value);
      scans := scans[id := scan.(isConfirmed := true, confirmedAt := Some(now))];
      error := None;
    }

    method Book(env: Env, data: Fields) returns (r: Result<seq<Receipt>, ScanError>)
      modifies inventory
      ensures match Booked(env, old(inventory.State()), data)
              case Ok((after, receipts)) => r == Ok(receipts) && inventory.State() == after
              case Err(e) => r == Err(e) && inventory.State() == old(inventory.State())
    {
      var rows := Get(data, "line_items");
      if rows.JList? && rows.items != [] {
        if !Truthy(Get(data, "supplier_name")) {
          return Err(ScanInvalid);
        }
        var lines: seq<Fields> := [];
        for i := 0 to |rows.items|
          invariant |lines| == i
          invariant forall k :: 0 <= k < i ==> rows.items[k].JDict? && Missing(rows.items[k].entries, LINE_REQUIRED) == []
          invariant forall k :: 0 <= k < i ==> lines[k] == rows.items[k].entries
        {
          if !rows.items[i].JDict? {
            return Err(ScanInvalid);
          }
          if Missing(rows.items[i].entries, LINE_REQUIRED) != [] {
            return Err(ScanInvalid);
          }
          lines := lines + [rows.items[i].entries];
        }
        assert lines == Dicts(rows.items);
        var batch := inventory.ApplyConfirmedInvoiceLines(env, data, lines);
        if batch.Err? {
          return Err(InventoryFault(batch.error));
        }
        return Ok(batch.value.0);
      }
      if Missing(data, REQUIRED_FIELDS) != [] {
        return Err(ScanInvalid);
      }
      var single := inventory.ApplyConfirmedInvoice(env, data);
      if single.Err? {
        return Err(InventoryFault(single.error));
      }
      r := Ok([single.value]);
    }

    method Reject(env: Env, id: nat, user: int, now: int) returns (error: Option<ScanError>)
      modifies this
      ensures Performed(env, old(State()), RejectScan(id, user, now), error)
    {
      if id >= |scans| {
        return Some(NoSuchScan);
      }
      if scans[id].owner != user {
        return Some(NotOwner);
      }
      if scans[id].isConfirmed || scans[id].status == Confirmed {
        return Some(AlreadyConfirmed);
      }
      scans := scans[id := scans[id].(status := RejectedScan, rejectedAt := Some(now))];
      error := None;
    }
  }

  // ----- One call -----

  // Booking adds exactly what its receipts say, code by code, and touches no reservation.
  lemma BookedAddsReceipts(env: Env, t: Tables, data: Fields, code: string)
    requires Booked(env, t, data).Ok?
    ensures var (after, receipts) := Booked(env, t, data).value;
            OnHand(after, code) == OnHand(t, code) + Added(receipts, code) && Reserved(after, code) == Reserved(t, code)
    ensures Added(Booked(env, t, data).value.1, code) >= 0
  {
    var rows := Get(data, "line_items");
    if rows.JList? && rows.items != [] {
      var entries := Entries(env, data, Dicts(rows.items));
      BatchGrowth(t, entries, |entries|, code);
      EntriesArePositive(env, data, Dicts(rows.items));
      AcceptedQuantityGrows(entries, |entries|, code);
    } else {
      SingleAddsReceipt(env, t, data, code);
    }
  }

  lemma SingleAddsReceipt(env: Env, t: Tables, data: Fields, code: string)
    requires ApplyInvoice(env, t, data).Ok?
    ensures var (after, receipt) := ApplyInvoice(env, t, data).value;
            && OnHand(after, code) == OnHand(t, code) + Added([receipt], code)
            && Reserved(after, code) == Reserved(t, code)
            && Added([receipt], code) >= 0
  {
    AppliedMovesOneCode(t, Read(env, data).value, code);
    ReadQuantityPositive(env, data);
    AddedOne(ApplyInvoice(env, t, data).value.1, code);
  }

  // An adjustment moves one code by its delta and keeps the reservation covered.
  lemma AdjustMovesOneCode(t: Tables, target: string, delta: int, code: string)
    requires Adjust(t, target, delta).Ok?
    ensures var after := Adjust(t, target, delta).value;
            && OnHand(after, code) == OnHand(t, code) + (if code == target then delta else 0)
            && Reserved(after, code) == Reserved(t, code)
            && Reserved(after, target) <= OnHand(after, target)
  {
  }

  // What the lines given to a confirmation say for a code, in their own terms.
  function GivenQuantity(env: Env, data: Fields, code: string): int {
    var rows := Get(data, "line_items");
    if rows.JList? && rows.items != [] then
      if LinesComplete(rows.items) then SaidTotal(env, Dicts(rows.items), |rows.items|, code) else 0
    else if SaidCode(env, Get(data, "sku_code")) == code then SaidQuantity(env, QuantityOf(data)) else 0
  }

  // A booking moves stock by exactly that, and its receipts say the same.
  lemma BookedAddsGiven(env: Env, t: Tables, data: Fields, code: string)
    requires Booked(env, t, data).Ok?
    ensures var (after, receipts) := Booked(env, t, data).value;
            && OnHand(after, code) == OnHand(t, code) + GivenQuantity(env, data, code)
            && Added(receipts, code) == GivenQuantity(env, data, code)
  {
    var rows := Get(data, "line_items");
    if rows.JList? && rows.items != [] {
      BatchGrowsAsSaid(env, t, data, Dicts(rows.items), code);
    } else {
      SingleReadsAsSaid(env, data);
      SingleAddsReceipt(env, t, data, code);
      AddedOne(Booked(env, t, data).value.1[0], code);
    }
  }

  // ----- Conservation over whole runs -----

  ghost predicate IsRun(env: Env, trace: seq<World>, ops: seq<Op>) {
    && |trace| == |ops| + 1
    && forall i :: 0 <= i < |ops| ==> trace[i + 1] == Step(env, trace[i], ops[i])
  }

  // A scan is confirmed exactly when its flag says so.
  predicate FlagAgrees(s: Scan) {
    s.isConfirmed <==> s.status == Confirmed
  }

  ghost predicate ScansOk(w: World) {
    forall i :: 0 <= i < |w.scans| ==> FlagAgrees(w.scans[i])
  }

  // Everything the confirmed scans among the first n have booked for a code, each scan once.
  function Ledger(scans: seq<Scan>, n: nat, code: string): int
    requires n <= |scans|
  {
    if n == 0 then 0
    else Ledger(scans, n - 1, code) + if scans[n - 1].isConfirmed then Added(scans[n - 1].receipts, code) else 0
  }

  function AcceptedDelta(env: Env, w: World, op: Op, code: string): int {
    if op.AdjustStock? && op.code == code && Perform(env, w, op).Ok? then op.delta else 0
  }

  // What the call books: the accepted quantity of the lines it was given.
  function BookedQuantity(env: Env, w: World, op: Op, code: string): int {
    if Books(env, w, op) then GivenQuantity(env, op.data, code) else 0
  }

  // What it books without storing its scan.
  function LostQuantity(env: Env, w: World, op: Op, code: string): int {
    if Books(env, w, op) && !op.stored then GivenQuantity(env, op.data, code) else 0
  }

  // What a call adds to the results stored with confirmed scans.
  function StoredQuantity(env: Env, w: World, op: Op, code: string): int {
    if Books(env, w, op) && op.stored then GivenQuantity(env, op.data, code) else 0
  }

  datatype Account = BookedEntry | LostEntry | StoredEntry | AdjustedEntry

  function Quantity(env: Env, w: World, op: Op, code: string, entry: Account): int {
    match entry
    case BookedEntry => BookedQuantity(env, w, op, code)
    case LostEntry => LostQuantity(env, w, op, code)
    case StoredEntry => StoredQuantity(env, w, op, code)
    case AdjustedEntry => AcceptedDelta(env, w, op, code)
  }

  // Its amount in each of the first n calls.
  function Amounts(env: Env, trace: seq<World>, ops: seq<Op>, n: nat, code: string, entry: Account): (r: seq<int>)
    requires n <= |ops| < |trace|
    ensures |r| == n
    ensures forall k :: 0 <= k < n ==> r[k] == Quantity(env, trace[k], ops[k], code, entry)
  {
    seq(n, k requires 0 <= k < n => Quantity(env, trace[k], ops[k], code, entry))
  }

  function TotalOf(env: Env, trace: seq<World>, ops: seq<Op>, n: nat, code: string, entry: Account): int
    requires n <= |ops| < |trace|
  {
    Total(Amounts(env, trace, ops, n, code, entry))
  }

  lemma {:induction false} LedgerSame(a: seq<Scan>, b: seq<Scan>, n: nat, code: string)
    requires n <= |a| && n <= |b| && forall i :: 0 <= i < n ==> a[i] == b[i]
    ensures Ledger(a, n, code) == Ledger(b, n, code)
  {
    if n > 0 {
      LedgerSame(a, b, n - 1, code);
    }
  }

  // Replacing one scan changes the ledger by that scan's contribution.
  lemma {:induction false} LedgerUpdate(scans: seq<Scan>, id: nat, s: Scan, n: nat, code: string)
    requires id < n <= |scans|
    ensures Ledger(scans[id := s], n, code)
         == Ledger(scans, n, code) + Contribution(s, code) - Contribution(scans[id], code)
  {
    if id < n - 1 {
      LedgerUpdate(scans, id, s, n - 1, code);
    } else {
      LedgerSame(scans, scans[id := s], n - 1, code);
    }
  }

  function Contribution(s: Scan, code: string): int {
    if s.isConfirmed then Added(s.receipts, code) else 0
  }

  function Recorded(w: World, code: string): int {
    Ledger(w.scans, |w.scans|, code)
  }

  lemma BookingMoves(env: Env, w: World, op: Op, code: string)
    requires ScansOk(w) && Books(env, w, op)
    ensures var after := Step(env, w, op);
            && OnHand(after.tables, code) - OnHand(w.tables, code) == GivenQuantity(env, op.data, code)
            && ScansOk(after)
            && Recorded(after, code) - Recorded(w, code) == if op.stored then GivenQuantity(env, op.data, code) else 0
  {
    BookedAddsGiven(env, w.tables, op.data, code);
    if op.stored {
      RecordingAdds(env, w, op.id, op.data, Booked(env, w.tables, op.data).value.1, op.now, code);
    }
  }

  lemma RecordingAdds(env: Env, w: World, id: nat, data: Fields, receipts: seq<Receipt>, now: int, code: string)
    requires ScansOk(w) && id < |w.scans| && !w.scans[id].isConfirmed
    requires Added(receipts, code) == GivenQuantity(env, data, code)
    ensures var scans := w.scans[id := ConfirmedScan(w.scans[id], data, receipts, now)];
            && (forall i :: 0 <= i < |scans| ==> FlagAgrees(scans[i]))
            && Ledger(scans, |scans|, code) - Recorded(w, code) == GivenQuantity(env, data, code)
  {
    LedgerUpdate(w.scans, id, ConfirmedScan(w.scans[id], data, receipts, now), |w.scans|, code);
  }

  lemma RejectingRecordsNothing(scans: seq<Scan>, id: nat, now: int, code: string)
    requires id < |scans|
    ensures Ledger(scans[id := RejectedAt(scans[id], now)], |scans|, code) == Ledger(scans, |scans|, code)
  {
    LedgerUpdate(scans, id, RejectedAt(scans[id], now), |scans|, code);
  }

  lemma AppendingRecordsNothing(scans: seq<Scan>, s: Scan, code: string)
    requires !s.isConfirmed
    ensures Ledger(scans + [s], |scans| + 1, code) == Ledger(scans, |scans|, code)
  {
    LedgerSame(scans, scans + [s], |scans|, code);
  }

  // The call records nothing, and moves stock by its accepted delta.
  ghost predicate RecordsNothing(env: Env, w: World, op: Op, code: string) {
    var after := Step(env, w, op);
    && ScansOk(after) && Recorded(after, code) == Recorded(w, code)
    && OnHand(after.tables, code) - OnHand(w.tables, code) == AcceptedDelta(env, w, op, code)
  }

  lemma ScanningRecordsNothing(env: Env, w: World, op: Op, code: string)
    requires ScansOk(w) && op.ScanInvoice?
    ensures RecordsNothing(env, w, op, code)
  {
    AppendingRecordsNothing(w.scans, Scanned(env, op.owner, op.extraction).0, code);
  }

  lemma RejectionRecordsNothing(env: Env, w: World, op: Op, code: string)
    requires ScansOk(w) && op.RejectScan?
    ensures RecordsNothing(env, w, op, code)
  {
    if Perform(env, w, op).Ok? {
      RejectingRecordsNothing(w.scans, op.id, op.now, code);
    }
  }

  lemma AdjustmentRecordsNothing(env: Env, w: World, op: Op, code: string)
    requires ScansOk(w) && op.AdjustStock?
    ensures RecordsNothing(env, w, op, code)
  {
    if Perform(env, w, op).Ok? {
      AdjustMovesOneCode(w.tables, op.code, op.delta, code);
    }
  }

  // One call moves on-hand stock by exactly what it books or adjusts, and the results stored with
  // the scans by what it books and stores.
  lemma StepConserves(env: Env, w: World, op: Op, code: string)
    requires ScansOk(w)
    ensures var after := Step(env, w, op);
            && ScansOk(after)
            && OnHand(after.tables, code)
               == OnHand(w.tables, code) + BookedQuantity(env, w, op, code) + AcceptedDelta(env, w, op, code)
            && Recorded(after, code) == Recorded(w, code) + StoredQuantity(env, w, op, code)
  {
    match op {
      case ScanInvoice(_, _) => ScanningRecordsNothing(env, w, op, code);
      case RejectScan(_, _, _) => RejectionRecordsNothing(env, w, op, code);
      case AdjustStock(_, _) => AdjustmentRecordsNothing(env, w, op, code);
      case ConfirmScan(_, _, _, _, _) =>
        if Books(env, w, op) {
          BookingMoves(env, w, op, code);
        }
    }
  }

  lemma NextIsStep(env: Env, trace: seq<World>, ops: seq<Op>, n: nat)
    requires IsRun(env, trace, ops) && 0 < n < |trace|
    ensures trace[n] == Step(env, trace[n - 1], ops[n - 1])
  {
    assert trace[(n - 1) + 1] == Step(env, trace[n - 1], ops[n - 1]);
  }

  lemma {:induction false} ScansStayOk(env: Env, trace: seq<World>, ops: seq<Op>, n: nat)
    requires IsRun(env, trace, ops) && n < |trace| && ScansOk(trace[0])
    ensures ScansOk(trace[n])
  {
    if n > 0 {
      ScansStayOk(env, trace, ops, n - 1);
      StepConserves(env, trace[n - 1], ops[n - 1], "");
      NextIsStep(env, trace, ops, n);
    }
  }

  // The stock of a code, and what the scans record of it, at the first n moments.
  function StockLevels(trace: seq<World>, code: string): (r: seq<int>)
    ensures |r| == |trace| && forall k :: 0 <= k < |r| ==> r[k] == OnHand(trace[k].tables, code)
  {
    seq(|trace|, k requires 0 <= k < |trace| => OnHand(trace[k].tables, code))
  }

  function Records(trace: seq<World>, code: string): (r: seq<int>)
    ensures |r| == |trace| && forall k :: 0 <= k < |r| ==> r[k] == Recorded(trace[k], code)
  {
    seq(|trace|, k requires 0 <= k < |trace| => Recorded(trace[k], code))
  }

  lemma StepQuantities(env: Env, w: World, op: Op, after: World, code: string)
    requires ScansOk(w)
    ensures after == Step(env, w, op) ==>
              && OnHand(after.tables, code)
                 == OnHand(w.tables, code) + (Quantity(env, w, op, code, BookedEntry) + Quantity(env, w, op, code, AdjustedEntry))
              && Recorded(after, code) == Recorded(w, code) + Quantity(env, w, op, code, StoredEntry)
  {
    StepConserves(env, w, op, code);
  }

  lemma BookedIsStoredOrLost(env: Env, w: World, op: Op, code: string)
    ensures Quantity(env, w, op, code, BookedEntry) == Quantity(env, w, op, code, StoredEntry) + Quantity(env, w, op, code, LostEntry)
  {
  }

  lemma StepAt(env: Env, trace: seq<World>, ops: seq<Op>, k: nat, code: string)
    requires IsRun(env, trace, ops) && k < |ops| && ScansOk(trace[0])
    ensures OnHand(trace[k + 1].tables, code)
         == OnHand(trace[k].tables, code)
            + (Quantity(env, trace[k], ops[k], code, BookedEntry) + Quantity(env, trace[k], ops[k], code, AdjustedEntry))
    ensures Recorded(trace[k + 1], code) == Recorded(trace[k], code) + Quantity(env, trace[k], ops[k], code, StoredEntry)
  {
    ScansStayOk(env, trace, ops, k);
    StepQuantities(env, trace[k], ops[k], trace[k + 1], code);
  }

  // In every run, for every code: stock on hand is the initial amount, plus the accepted quantities
  // of the lines that were booked, plus the accepted adjustments.
  lemma StockIsConserved(env: Env, trace: seq<World>, ops: seq<Op>, n: nat, code: string)
    requires IsRun(env, trace, ops) && n < |trace| && ScansOk(trace[0])
    ensures OnHand(trace[n].tables, code)
         == OnHand(trace[0].tables, code)
            + TotalOf(env, trace, ops, n, code, BookedEntry) + TotalOf(env, trace, ops, n, code, AdjustedEntry)
  {
    var booked, adjusted := Amounts(env, trace, ops, n, code, BookedEntry), Amounts(env, trace, ops, n, code, AdjustedEntry);
    var moves := seq(n, k requires 0 <= k < n => booked[k] + adjusted[k]);
    var levels := StockLevels(trace, code)[..n + 1];
    forall k | 0 <= k < n
      ensures levels[k + 1] == levels[k] + moves[k]
    {
      StepAt(env, trace, ops, k, code);
    }
    TotalOfMoves(levels, moves);
    TotalOfSums(moves, booked, adjusted);
  }

  // The results stored with the confirmed scans, each scan counted once, add up to what was booked
  // and stored; the rest of what was booked was lost.
  lemma RecordsAreConserved(env: Env, trace: seq<World>, ops: seq<Op>, n: nat, code: string)
    requires IsRun(env, trace, ops) && n < |trace| && ScansOk(trace[0])
    ensures Recorded(trace[n], code) == Recorded(trace[0], code) + TotalOf(env, trace, ops, n, code, StoredEntry)
    ensures TotalOf(env, trace, ops, n, code, BookedEntry)
         == TotalOf(env, trace, ops, n, code, StoredEntry) + TotalOf(env, trace, ops, n, code, LostEntry)
  {
    var stored, lost := Amounts(env, trace, ops, n, code, StoredEntry), Amounts(env, trace, ops, n, code, LostEntry);
    var booked := Amounts(env, trace, ops, n, code, BookedEntry);
    var records := Records(trace, code)[..n + 1];
    forall k | 0 <= k < n
      ensures records[k + 1] == records[k] + stored[k] && booked[k] == stored[k] + lost[k]
    {
      StepAt(env, trace, ops, k, code);
      BookedIsStoredOrLost(env, trace[k], ops[k], code);
    }
    TotalOfMoves(records, stored);
    TotalOfSums(booked, stored, lost);
  }

  lemma LostIsNotNegative(env: Env, w: World, op: Op, code: string)
    ensures LostQuantity(env, w, op, code) >= 0
  {
    if Books(env, w, op) {
      BookedAddsReceipts(env, w.tables, op.data, code);
      BookedAddsGiven(env, w.tables, op.data, code);
    }
  }

  // The books balance: stock is the initial amount plus what the confirmed scans record, each counted
  // once, plus the accepted adjustments.
  predicate Balanced(env: Env, trace: seq<World>, ops: seq<Op>, n: nat, code: string)
    requires n <= |ops| < |trace|
  {
    OnHand(trace[n].tables, code) == OnHand(trace[0].tables, code)
      + (Recorded(trace[n], code) - Recorded(trace[0], code)) + TotalOf(env, trace, ops, n, code, AdjustedEntry)
  }

  // They do exactly when no call booked some of that code without its scan being stored.
  lemma BalancedExactly(env: Env, trace: seq<World>, ops: seq<Op>, n: nat, code: string)
    requires IsRun(env, trace, ops) && n < |trace| && ScansOk(trace[0])
    ensures Balanced(env, trace, ops, n, code)
       <==> forall k :: 0 <= k < n ==> Amounts(env, trace, ops, n, code, LostEntry)[k] == 0
  {
    var lost := Amounts(env, trace, ops, n, code, LostEntry);
    StockIsConserved(env, trace, ops, n, code);
    RecordsAreConserved(env, trace, ops, n, code);
    forall k | 0 <= k < n
      ensures lost[k] >= 0
    {
      LostIsNotNegative(env, trace[k], ops[k], code);
    }
    TotalIsZeroIff(lost);
  }

  // Every reservation is covered by stock on hand.
  ghost predicate Covered(t: Tables) {
    forall code :: Reserved(t, code) <= OnHand(t, code)
  }

  lemma StepKeepsCover(env: Env, w: World, op: Op)
    requires Covered(w.tables)
    ensures Covered(Step(env, w, op).tables)
  {
    var after := Step(env, w, op);
    if Books(env, w, op) || (op.AdjustStock? && Perform(env, w, op).Ok?) {
      forall code
        ensures Reserved(after.tables, code) <= OnHand(after.tables, code)
      {
        assert Reserved(w.tables, code) <= OnHand(w.tables, code);
        if op.ConfirmScan? {
          BookedAddsReceipts(env, w.tables, op.data, code);
        } else {
          AdjustMovesOneCode(w.tables, op.code, op.delta, code);
        }
      }
    }
  }

  // In every run from covered reservations they stay covered.
  lemma {:induction false} ReservationsStayCovered(env: Env, trace: seq<World>, ops: seq<Op>, n: nat)
    requires IsRun(env, trace, ops) && n < |trace| && Covered(trace[0].tables)
    ensures Covered(trace[n].tables)
  {
    if n > 0 {
      ReservationsStayCovered(env, trace, ops, n - 1);
      StepKeepsCover(env, trace[n - 1], ops[n - 1]);
      NextIsStep(env, trace, ops, n);
    }
  }

  // The call rejects the scan once more, at another time.
  predicate RejectsAgain(env: Env, w: World, op: Op, id: nat)
    requires id < |w.scans|
  {
    op.RejectScan? && op.id == id && Perform(env, w, op).Ok? && w.scans[id].rejectedAt != Some(op.now)
  }

  // A confirmed scan never changes again.  A rejected scan changes exactly when it is rejected once
  // more at another time, and then in that time alone.
  lemma DecidedScansStay(env: Env, w: World, op: Op, id: nat)
    requires ScansOk(w) && id < |w.scans|
    ensures |w.scans| <= |Step(env, w, op).scans|
    ensures var s, s' := w.scans[id], Step(env, w, op).scans[id];
            && (s.status == Confirmed ==> s' == s)
            && (s.status == RejectedScan ==>
                  s' == s.(rejectedAt := s'.rejectedAt) && (s' != s <==> RejectsAgain(env, w, op, id)))
  {
  }

  // Confirmed and rejected exclude each other over whole runs: a confirmed scan stays exactly as it
  // is, a rejected one in everything but the time of its rejection.
  lemma {:induction false} DecisionsAreFinal(env: Env, trace: seq<World>, ops: seq<Op>, m: nat, n: nat, id: nat)
    requires IsRun(env, trace, ops) && m <= n < |trace| && ScansOk(trace[0])
    requires id < |trace[m].scans| && trace[m].scans[id].status in {Confirmed, RejectedScan}
    ensures id < |trace[n].scans|
    ensures trace[n].scans[id] == trace[m].scans[id].(rejectedAt := trace[n].scans[id].rejectedAt)
    ensures trace[m].scans[id].status == Confirmed ==> trace[n].scans[id] == trace[m].scans[id]
    decreases n
  {
    if m < n {
      DecisionsAreFinal(env, trace, ops, m, n - 1, id);
      ScansStayOk(env, trace, ops, n - 1);
      DecidedScansStay(env, trace[n - 1], ops[n - 1], id);
      NextIsStep(env, trace, ops, n);
    }
  }

  // A stored booking is the last one of its scan: a scan is booked again only after bookings that
  // were not stored, so what the confirmed scans record was booked once.
  lemma StoredBookingIsLast(env: Env, trace: seq<World>, ops: seq<Op>, i: nat, j: nat)
    requires IsRun(env, trace, ops) && i < j < |ops| && ScansOk(trace[0])
    ensures Books(env, trace[i], ops[i]) && Books(env, trace[j], ops[j]) && ops[i].id == ops[j].id ==> !ops[i].stored
  {
    if Books(env, trace[i], ops[i]) && ops[i].stored {
      NextIsStep(env, trace, ops, i + 1);
      DecisionsAreFinal(env, trace, ops, i + 1, j, ops[i].id);
    }
  }

  // ----- What a scan records -----

  predicate Given(d: Fields, key: string) {
    key in d && Truthy(d[key])
  }

  // A required field is missing exactly when the data have no true value for it.
  lemma {:induction false} MissingExactly(data: Fields, required: seq<string>, f: string)
    ensures f in Missing(data, required) <==> f in required && !Given(data, f)
    ensures Missing(data, required) == [] <==> forall k :: 0 <= k < |required| ==> Given(data, required[k])
  {
    if required != [] {
      MissingExactly(data, required[1..], f);
      assert forall k :: 1 <= k < |required| ==> required[k] == required[1..][k - 1];
      assert forall k :: 0 <= k < |required| - 1 ==> required[1..][k] == required[k + 1];
    }
  }

  // The five required fields are there.
  predicate FiveGiven(data: Fields) {
    && Given(data, "product_name") && Given(data, "sku_code") && Given(data, "quantity_received")
    && Given(data, "unit_price") && Given(data, "supplier_name")
  }

  lemma NothingMissingIff(data: Fields)
    ensures Missing(data, REQUIRED_FIELDS) == [] <==> FiveGiven(data)
  {
    MissingExactly(data, REQUIRED_FIELDS, "");
    assert FiveGiven(data) ==> forall k :: 0 <= k < |REQUIRED_FIELDS| ==> Given(data, REQUIRED_FIELDS[k]);
    assert REQUIRED_FIELDS[0] == "product_name" && REQUIRED_FIELDS[1] == "sku_code" && REQUIRED_FIELDS[2] == "quantity_received"
        && REQUIRED_FIELDS[3] == "unit_price" && REQUIRED_FIELDS[4] == "supplier_name";
  }

  // What the parser found: a supplier and a first line with a name, a code, a quantity and a price.
  predicate FirstLineGiven(x: InvoiceParser.Extraction) {
    && Given(x.header, "supplier_name")
    && x.lineItems != []
    && Given(x.lineItems[0], "item_name") && Given(x.lineItems[0], "sku_code")
    && Given(x.lineItems[0], "quantity") && Given(x.lineItems[0], "unit_price")
  }

  predicate LinesStored(lines: seq<Fields>, rows: seq<Json>) {
    |rows| == |lines| && forall k :: 0 <= k < |rows| ==> rows[k] == JDict(lines[k])
  }

  predicate MirrorKey(key: string) {
    key in {"line_items", "product_name", "sku_code", "quantity_received", "unit_price"}
  }

  // The stored data: the header as it was parsed, the line items, and the first line under the
  // names of the single-line form.
  lemma StoredDataExactly(x: InvoiceParser.Extraction)
    ensures var data := StoredData(x);
            && (forall key :: key in x.header && !MirrorKey(key) ==> key in data && data[key] == x.header[key])
            && "line_items" in data && data["line_items"].JList?
            && LinesStored(x.lineItems, data["line_items"].items)
            && (x.lineItems != [] ==>
                  && Get(data, "product_name") == Get(x.lineItems[0], "item_name")
                  && Get(data, "sku_code") == Get(x.lineItems[0], "sku_code")
                  && Get(data, "quantity_received") == Get(x.lineItems[0], "quantity")
                  && Get(data, "unit_price") == Get(x.lineItems[0], "unit_price"))
            && (x.lineItems == [] ==> !Given(data, "product_name"))
            && (Given(data, "supplier_name") <==> Given(x.header, "supplier_name"))
  {
  }

  lemma FirstLineGivenIff(x: InvoiceParser.Extraction)
    ensures FiveGiven(StoredData(x)) <==> FirstLineGiven(x)
  {
    StoredDataExactly(x);
  }

  // The fields reported as missing are those of the five that have no true value.
  ghost predicate Reports(data: Fields, missing: seq<string>) {
    forall f :: f in missing <==>
      f in ["product_name", "sku_code", "quantity_received", "unit_price", "supplier_name"] && !Given(data, f)
  }

  lemma MissingOfFive(data: Fields)
    ensures Reports(data, Missing(data, REQUIRED_FIELDS))
  {
    forall f
      ensures f in Missing(data, REQUIRED_FIELDS) <==>
                f in ["product_name", "sku_code", "quantity_received", "unit_price", "supplier_name"] && !Given(data, f)
    {
      MissingOne(data, f);
    }
  }

  lemma MissingOne(data: Fields, f: string)
    ensures f in Missing(data, REQUIRED_FIELDS) <==>
              f in ["product_name", "sku_code", "quantity_received", "unit_price", "supplier_name"] && !Given(data, f)
  {
    MissingExactly(data, REQUIRED_FIELDS, f);
  }

  // An answer that is an object is stored as Extracted exactly when the parser found all five
  // required values, and as Partial otherwise.
  lemma ExtractedExactly(env: Env, owner: int, raw: Json)
    requires raw.JDict?
    ensures var (scan, error) := Scanned(env, owner, Answer(raw));
            var x := InvoiceParser.Parse(env, raw);
            && error == None && scan.owner == owner && !scan.isConfirmed && scan.extracted == StoredData(x)
            && (scan.status == Extracted <==> FirstLineGiven(x)) && (scan.status == Partial <==> !FirstLineGiven(x))
            && Reports(scan.extracted, scan.missing)
            && (scan.failureReason == if FirstLineGiven(x) then "" else "missing required fields")
  {
    StoredExactly(owner, InvoiceParser.Parse(env, raw));
  }

  lemma StoredExactly(owner: int, x: InvoiceParser.Extraction)
    ensures var scan := ExtractedScan(owner, StoredData(x));
            && (scan.status == Extracted <==> FirstLineGiven(x)) && (scan.status == Partial <==> !FirstLineGiven(x))
            && Reports(scan.extracted, scan.missing)
            && (scan.failureReason == if FirstLineGiven(x) then "" else "missing required fields")
  {
    FirstLineGivenIff(x);
    NothingMissingIff(StoredData(x));
    MissingOfFive(StoredData(x));
  }

  // Every other answer: a failed scan with all five fields missing, or a pending one.
  lemma FailedExactly(env: Env, owner: int, e: Extraction)
    ensures var (scan, error) := Scanned(env, owner, e);
            && (error == None <==> e.Answer? && e.raw.JDict?)
            && (scan.status == ScanFailed <==> !e.OtherFailure? && !(e.Answer? && e.raw.JDict?))
            && (scan.status == Pending <==> e.OtherFailure?)
            && (scan.status == ScanFailed ==>
                  scan.missing == ["product_name", "sku_code", "quantity_received", "unit_price", "supplier_name"])
            && (error == Some(ExtractionTimeout) <==> e.TimedOut?)
            && (error == Some(QuotaExhausted) <==> e.OutOfQuota?)
            && (error == Some(ExtractionMalformed) <==> e.Malformed? || (e.Answer? && !e.raw.JDict?))
            && (error == Some(ExtractionError) <==> e.OtherFailure?)
            && (e.TimedOut? || e.Malformed? || e.OutOfQuota? ==> scan.failureReason == e.detail)
            && (e.Answer? && !e.raw.JDict? ==> scan.failureReason == "Vision response was not a JSON object.")
  {
    if e.Answer? && e.raw.JDict? {
      ExtractedExactly(env, owner, e.raw);
    }
  }

  // ----- Who decides a scan -----

  predicate LineGiven(row: Json) {
    row.JDict? && Given(row.entries, "item_name") && Given(row.entries, "sku_code") && Given(row.entries, "quantity")
  }

  // The data a confirmation needs: with line items, a supplier and three fields on every line;
  // without, the five fields.
  predicate Complete(data: Fields) {
    if "line_items" in data && data["line_items"].JList? && data["line_items"].items != []
    then Given(data, "supplier_name") && forall k :: 0 <= k < |data["line_items"].items| ==> LineGiven(data["line_items"].items[k])
    else FiveGiven(data)
  }

  lemma LineCompleteIff(row: Json)
    requires row.JDict?
    ensures Missing(row.entries, LINE_REQUIRED) == [] <==> LineGiven(row)
  {
    MissingExactly(row.entries, LINE_REQUIRED, "");
    assert LINE_REQUIRED[0] == "item_name" && LINE_REQUIRED[1] == "sku_code" && LINE_REQUIRED[2] == "quantity";
  }

  lemma BookedInvalidIff(env: Env, t: Tables, data: Fields)
    ensures Booked(env, t, data) == Err(ScanInvalid) <==> !Complete(data)
  {
    NothingMissingIff(data);
    var rows := Get(data, "line_items");
    if rows.JList? && rows.items != [] {
      forall k | 0 <= k < |rows.items| && rows.items[k].JDict?
        ensures Missing(rows.items[k].entries, LINE_REQUIRED) == [] <==> LineGiven(rows.items[k])
      {
        LineCompleteIff(rows.items[k]);
      }
      assert LinesComplete(rows.items) <==> forall k :: 0 <= k < |rows.items| ==> LineGiven(rows.items[k]);
    }
  }

  // Only the owner of a scan that is not decided yet books it, and only with complete data.
  lemma OnlyOwnerBooks(env: Env, w: World, op: Op)
    requires Books(env, w, op)
    ensures op.id < |w.scans| && w.scans[op.id].owner == op.user && Complete(op.data)
    ensures !w.scans[op.id].isConfirmed && w.scans[op.id].status in {Pending, Extracted, Partial, ScanFailed}
  {
    BookedInvalidIff(env, w.tables, op.data);
  }

  // A confirmation is refused, with this error and no change, exactly in these cases.
  lemma RefusedExactly(env: Env, w: World, id: nat, user: int, data: Fields, now: int, stored: bool)
    requires ScansOk(w)
    ensures var op := ConfirmScan(id, user, data, now, stored);
            var r := Perform(env, w, op);
            && (r == Err(NoSuchScan) <==> id >= |w.scans|)
            && (r == Err(NotOwner) <==> id < |w.scans| && w.scans[id].owner != user)
            && (r == Err(AlreadyConfirmed) <==> id < |w.scans| && w.scans[id].owner == user && w.scans[id].status == Confirmed)
            && (r == Err(ScanInvalid) <==>
                  id < |w.scans| && w.scans[id].owner == user
                  && (w.scans[id].status == RejectedScan || (w.scans[id].status != Confirmed && !Complete(data))))
            && (r.Err? && r.error != NotStored ==> Step(env, w, op) == w)
  {
    BookedInvalidIff(env, w.tables, data);
  }

  lemma RejectionRefusedExactly(env: Env, w: World, id: nat, user: int, now: int)
    requires ScansOk(w)
    ensures var op := RejectScan(id, user, now);
            var r := Perform(env, w, op);
            && (r == Err(NoSuchScan) <==> id >= |w.scans|)
            && (r == Err(NotOwner) <==> id < |w.scans| && w.scans[id].owner != user)
            && (r == Err(AlreadyConfirmed) <==> id < |w.scans| && w.scans[id].owner == user && w.scans[id].status == Confirmed)
            && (r.Ok? <==> id < |w.scans| && w.scans[id].owner == user && w.scans[id].status != Confirmed)
            && Step(env, w, op).tables == w.tables
  {
  }

  // A call changes a scan only when its owner confirms it, with complete data and a scan that can be
  // stored, or rejects it; this is what the scan becomes.
  lemma ScanChanges(env: Env, w: World, op: Op, id: nat)
    requires ScansOk(w) && id < |w.scans| && Step(env, w, op).scans[id] != w.scans[id]
    ensures (op.ConfirmScan? || op.RejectScan?) && op.id == id && op.user == w.scans[id].owner && w.scans[id].status != Confirmed
    ensures var s, s' := w.scans[id], Step(env, w, op).scans[id];
            && s'.owner == s.owner && s'.extracted == s.extracted && s'.missing == s.missing && s'.failureReason == s.failureReason
            && (op.ConfirmScan? ==>
                  op.stored && s.status != RejectedScan && Complete(op.data) && s'.status == Confirmed && s'.isConfirmed
                  && s'.confirmedData == op.data && s'.confirmedAt == Some(op.now) && s'.rejectedAt == s.rejectedAt)
            && (op.RejectScan? ==>
                  s'.status == RejectedScan && s'.rejectedAt == Some(op.now) && !s'.isConfirmed
                  && s'.confirmedData == s.confirmedData && s'.receipts == s.receipts && s'.confirmedAt == s.confirmedAt)
  {
    if op.ConfirmScan? && Books(env, w, op) {
      OnlyOwnerBooks(env, w, op);
    }
  }

  // In every run a scan stays as it is, and books nothing, as long as its owner does not call.
  lemma {:induction false} OnlyOwnerDecides(env: Env, trace: seq<World>, ops: seq<Op>, m: nat, n: nat, id: nat)
    requires IsRun(env, trace, ops) && m <= n < |trace| && ScansOk(trace[0]) && id < |trace[m].scans|
    requires forall k :: m <= k < n && (ops[k].ConfirmScan? || ops[k].RejectScan?) && ops[k].id == id ==>
               ops[k].user != trace[m].scans[id].owner
    ensures id < |trace[n].scans| && trace[n].scans[id] == trace[m].scans[id]
    ensures forall k :: m <= k < n && Books(env, trace[k], ops[k]) ==> ops[k].id != id
    decreases n
  {
    if m < n {
      OnlyOwnerDecides(env, trace, ops, m, n - 1, id);
      ScansStayOk(env, trace, ops, n - 1);
      NextIsStep(env, trace, ops, n);
      DecidedScansStay(env, trace[n - 1], ops[n - 1], id);
      if trace[n].scans[id] != trace[n - 1].scans[id] {
        ScanChanges(env, trace[n - 1], ops[n - 1], id);
        assert false;
      }
    }
  }
}
