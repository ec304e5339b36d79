// Purchase orders and the service that changes them
// (apps/purchasing/services.py, repositories.py, timeout_tasks.py and the two agent tools
// that touch an order's status).  The table is a sequence: row i is the order with primary
// key i, rows are appended by `DraftPo` and never deleted.
module Purchasing {
  import opened Wrappers

  datatype Status =
    | Draft | PendingApproval | Approved | EmailSent | Sent | WaitingConfirmation
    | Confirmed | Rejected | Cancelled | Failed | TimedOut

  datatype PurchaseOrder = PurchaseOrder(
    sku: int,
    supplier: int,
    quantity: int,
    status: Status,
    approvedBy: Option<int>,
    sentAt: Option<int>,
    messageId: Option<string>,
    confirmedAt: Option<int>,
    notes: string)

  // An email handed to the queue for the supplier of order `po`.
  datatype Mail = Mail(po: nat, messageId: string)

  datatype Database = Database(orders: seq<PurchaseOrder>, outbox: seq<Mail>)

  datatype PoError = NotFound | IllegalTransition | ValidationFailed | RowRefused

  type PoResult = Result<Database, PoError>

  // 48 hours in microseconds, the resolution of the clock.
  const TIMEOUT_WINDOW := 48 * 3600 * 1000000

  // LEGAL_TRANSITIONS
  function Allowed(s: Status): set<Status> {
    match s
    case Draft => {PendingApproval, Approved, Rejected, Cancelled}
    case PendingApproval => {Approved, Rejected, Cancelled}
    case Approved => {Sent, EmailSent, Cancelled}
    case EmailSent => {WaitingConfirmation, Cancelled}
    case WaitingConfirmation => {Confirmed, Cancelled}
    case Sent => {Confirmed, Cancelled}
    case _ => {}
  }

  // The statuses the duplicate check and the partial unique constraint look at.
  predicate IsActive(s: Status) {
    s in {Draft, PendingApproval, Approved}
  }

  // The statuses `get_open_for_sku` looks at.
  predicate IsOpen(s: Status) {
    s in {Draft, PendingApproval, Approved, Sent, EmailSent, WaitingConfirmation}
  }

  // The order has been offered to the supplier.
  predicate BeyondApproval(s: Status) {
    s in {Sent, EmailSent, WaitingConfirmation, Confirmed}
  }

  // One run of the timeout task: the clock of its query, the text each row's own reading of the
  // clock gives for the moment of detection, and the rows whose save fails.
  datatype Sweep = Sweep(now: int, detectedAt: nat -> string, unsaved: set<nat>)

  // Every service call, with the values it reads from outside: the clock, whether the
  // database takes a new row, whether the mail queue takes a message.
  datatype Op =
    | DraftPo(sku: int, supplier: int, quantity: int, rowAccepted: bool)
    | ApprovePo(id: nat, user: int, skipEmail: bool, deliverable: bool)
    | RejectPo(id: nat)
    | SendPo(id: nat, now: int)
    | MarkEmailSent(id: nat, messageId: Option<string>, now: int)
    | MarkWaiting(id: nat)
    | MarkConfirmed(id: nat, now: int)
    | MarkFailed(id: nat, error: string)
    | MarkTimeout(id: nat)
    | TransitionTo(id: nat, target: Status, now: int)
    | RunEmailTool(id: nat, queueUp: bool, mailId: string)
    | ExpireStale(sweep: Sweep)

  // ----- Specification: what each call does to the tables -----

  predicate ActiveMatch(po: PurchaseOrder, sku: int, supplier: int, quantity: int) {
    po.sku == sku && po.supplier == supplier && po.quantity == quantity && IsActive(po.status)
  }

  // The newest active order for the key among the first n rows.
  function LastActive(orders: seq<PurchaseOrder>, n: nat, sku: int, supplier: int, quantity: int): (r: Option<nat>)
    requires n <= |orders|
    ensures r.Some? ==> r.value < n && ActiveMatch(orders[r.value], sku, supplier, quantity)
    ensures r.None? ==> forall i :: 0 <= i < n ==> !ActiveMatch(orders[i], sku, supplier, quantity)
    ensures r.Some? ==> forall i :: r.value < i < n ==> !ActiveMatch(orders[i], sku, supplier, quantity)
  {
    if n == 0 then None
    else if ActiveMatch(orders[n - 1], sku, supplier, quantity) then Some(n - 1)
    else LastActive(orders, n - 1, sku, supplier, quantity)
  }

  function NewOrder(sku: int, supplier: int, quantity: int): PurchaseOrder {
    PurchaseOrder(sku, supplier, quantity, Draft, None, None, None, None, "")
  }

  // `draft_po`: the new tables and the primary key of the order it returns.
  function DraftResult(db: Database, sku: int, supplier: int, quantity: int, rowAccepted: bool): Result<(Database, nat), PoError> {
    var existing := LastActive(db.orders, |db.orders|, sku, supplier, quantity);
    if existing.Some? then Ok((db, existing.value))
    else if !rowAccepted then Err(RowRefused)
    else Ok((db.(orders := db.orders + [NewOrder(sku, supplier, quantity)]), |db.orders|))
  }

  function Put(db: Database, id: nat, po: PurchaseOrder): Database
    requires id < |db.orders|
  {
    db.(orders := db.orders[id := po])
  }

  // `update_data` of mark_email_sent keeps the old message id when none (or an empty one) is given.
  function EmailSentRow(po: PurchaseOrder, messageId: Option<string>, now: int): PurchaseOrder {
    po.(status := EmailSent,
        sentAt := Some(now),
        messageId := if messageId.Some? && messageId.value != "" then messageId else po.messageId)
  }

  function Decimal(n: nat): string {
    (if n < 10 then "" else Decimal(n / 10)) + ["0123456789"[n % 10]]
  }

  function ApprovalMail(id: nat): Mail {
    Mail(id, "po-" + Decimal(id) + "-approved")
  }

  predicate NoMessageId(po: PurchaseOrder) {
    po.messageId.None? || po.messageId.value == ""
  }

  predicate IsStale(po: PurchaseOrder, now: int) {
    po.status in {EmailSent, WaitingConfirmation} && po.sentAt.Some? && po.sentAt.value <= now - TIMEOUT_WINDOW
  }

  function ExpiredRow(po: PurchaseOrder, detectedAt: string): PurchaseOrder {
    po.(status := TimedOut,
        notes := (if po.notes == "" then "" else po.notes + "\n")
                 + "Timed out: no supplier response within 48 hours (detected at " + detectedAt + ")")
  }

  predicate Swept(po: PurchaseOrder, i: nat, sweep: Sweep) {
    IsStale(po, sweep.now) && i !in sweep.unsaved
  }

  function SweptRow(po: PurchaseOrder, i: nat, sweep: Sweep): PurchaseOrder {
    if Swept(po, i, sweep) then ExpiredRow(po, sweep.detectedAt(i)) else po
  }

  // The keys a sweep reports among the rows from i on: exactly the saved stale ones, newest first.
  function Report(orders: seq<PurchaseOrder>, i: nat, sweep: Sweep): (r: seq<nat>)
    requires i <= |orders|
    ensures forall k: nat :: k in r <==> i <= k < |orders| && Swept(orders[k], k, sweep)
    ensures forall a, b :: 0 <= a < b < |r| ==> r[b] < r[a]
    decreases |orders| - i
  {
    if i == |orders| then []
    else
      var later := Report(orders, i + 1, sweep);
      assert forall a :: 0 <= a < |later| ==> later[a] in later;
      if Swept(orders[i], i, sweep) then later + [i] else later
  }

  function Expire(orders: seq<PurchaseOrder>, sweep: Sweep): (r: seq<PurchaseOrder>)
    ensures |r| == |orders|
    ensures forall i :: 0 <= i < |r| ==> r[i] == SweptRow(orders[i], i, sweep)
  {
    if orders == [] then []
    else Expire(orders[..|orders| - 1], sweep) + [SweptRow(orders[|orders| - 1], |orders| - 1, sweep)]
  }

  // The outcome of one call: the new tables, or the exception (which leaves them unchanged).
  function Apply(db: Database, op: Op): PoResult {
    match op
    case DraftPo(sku, supplier, quantity, rowAccepted) =>
      var r := DraftResult(db, sku, supplier, quantity, rowAccepted);
      if r.Ok? then Ok(r.value.0) else Err(r.error)
    case ExpireStale(sweep) => Ok(db.(orders := Expire(db.orders, sweep)))
    case _ => if op.id < |db.orders| then ApplyTo(db, op, db.orders[op.id]) else Err(NotFound)
  }

  // A call on the existing row `po`.
  function ApplyTo(db: Database, op: Op, po: PurchaseOrder): PoResult
    requires !op.DraftPo? && !op.ExpireStale?
    requires op.id < |db.orders| && po == db.orders[op.id]
  {
    match op
    case ApprovePo(id, user, skipEmail, deliverable) =>
      if po.status !in {Draft, PendingApproval} then Err(IllegalTransition)
      else
        var done := Put(db, id, po.(status := Approved, approvedBy := Some(user)));
        Ok(if !skipEmail && NoMessageId(po) && deliverable
           then done.(outbox := done.outbox + [ApprovalMail(id)]) else done)
    case RejectPo(id) =>
      if po.status !in {Draft, PendingApproval} then Err(IllegalTransition)
      else Ok(Put(db, id, po.(status := Rejected)))
    case SendPo(id, now) =>
      if po.status != Approved then Err(ValidationFailed)
      else Ok(Put(db, id, po.(status := Sent, sentAt := Some(now))))
    case MarkEmailSent(id, messageId, now) =>
      if po.status !in {Approved, Sent} then Err(ValidationFailed)
      else Ok(Put(db, id, EmailSentRow(po, messageId, now)))
    case MarkWaiting(id) =>
      if po.status != EmailSent then Err(ValidationFailed)
      else Ok(Put(db, id, po.(status := WaitingConfirmation)))
    case MarkConfirmed(id, now) =>
      if po.status != WaitingConfirmation then Err(ValidationFailed)
      else Ok(Put(db, id, po.(status := Confirmed, confirmedAt := Some(now))))
    case MarkFailed(id, error) =>
      Ok(Put(db, id, po.(status := Failed, notes := if error != "" then error else po.notes)))
    case MarkTimeout(id) =>
      Ok(Put(db, id, po.(status := TimedOut)))
    case TransitionTo(id, target, now) =>
      if target !in Allowed(po.status) then Err(IllegalTransition)
      else Ok(Put(db, id, po.(status := target,
                              confirmedAt := if target == Confirmed then Some(now) else po.confirmedAt)))
    case RunEmailTool(id, queueUp, mailId) =>
      if po.status !in {Approved, Sent} || !queueUp then Err(ValidationFailed)
      else Ok(db.(outbox := db.outbox + [Mail(id, mailId)]))
  }

  // One step of a run: a call that raises leaves the tables as they were.
  function Step(db: Database, op: Op): Database {
    var r := Apply(db, op);
    if r.Ok? then r.value else db
  }

  // ----- The service -----

  class PurchasingService {
    var orders: seq<PurchaseOrder>
    var outbox: seq<Mail>

    function State(): Database
      reads this
    {
      Database(orders, outbox)
    }

    constructor ()
      ensures State() == Database([], [])
    {
      orders, outbox := [], [];
    }

    method DraftPo(sku: int, supplier: int, quantity: int, rowAccepted: bool) returns (r: Result<nat, PoError>)
      modifies this
      ensures var spec := DraftResult(old(State()), sku, supplier, quantity, rowAccepted);
              if spec.Ok? then r == Ok(spec.value.1) && State() == spec.value.0
              else r == Err(spec.error) && State() == old(State())
    {
      var i := |orders|;
      while i > 0
        invariant 0 <= i <= |orders|
        invariant LastActive(orders, |orders|, sku, supplier, quantity) == LastActive(orders, i, sku, supplier, quantity)
      {
        i := i - 1;
        if ActiveMatch(orders[i], sku, supplier, quantity) {
          return Ok(i);
        }
      }
      if !rowAccepted {
        return Err(RowRefused);
      }
      orders := orders + [NewOrder(sku, supplier, quantity)];
      r := Ok(|orders| - 1);
    }

    method ApprovePo(id: nat, user: int, skipEmail: bool, deliverable: bool) returns (r: Option<PoError>)
      modifies this
      ensures Performed(old(State()), Op.ApprovePo(id, user, skipEmail, deliverable), r)
    {
      if id >= |orders| {
        return Some(NotFound);
      }
      var po := orders[id];
      if po.status != Draft && po.status != PendingApproval {
        return Some(IllegalTransition);
      }
      orders := orders[id := po.(status := Approved, approvedBy := Some(user))];
      if !skipEmail {
        DispatchSupplierEmail(id, deliverable);
      }
      r := None;
    }

    // `deliverable`: the supplier has a contact address and the queue accepts the message.
    method DispatchSupplierEmail(id: nat, deliverable: bool)
      requires id < |orders|
      modifies this`outbox
      ensures outbox == old(outbox) + (if NoMessageId(orders[id]) && deliverable then [ApprovalMail(id)] else [])
    {
      var po := orders[id];
      if po.messageId.Some? && po.messageId.value != "" {
        return;
      }
      if !deliverable {
        return;
      }
      outbox := outbox + [ApprovalMail(id)];
    }

    method RejectPo(id: nat) returns (r: Option<PoError>)
      modifies this`orders
      ensures Performed(old(State()), Op.RejectPo(id), r)
    {
      if id >= |orders| {
        return Some(NotFound);
      }
      var po := orders[id];
      if po.status != Draft && po.status != PendingApproval {
        return Some(IllegalTransition);
      }
      orders := orders[id := po.(status := Rejected)];
      r := None;
    }

    method SendPo(id: nat, now: int) returns (r: Option<PoError>)
      modifies this`orders
      ensures Performed(old(State()), Op.SendPo(id, now), r)
    {
      if id >= |orders| {
        return Some(NotFound);
      }
      if orders[id].status != Approved {
        return Some(ValidationFailed);
      }
      orders := orders[id := orders[id].(status := Sent, sentAt := Some(now))];
      r := None;
    }

    method MarkEmailSent(id: nat, messageId: Option<string>, now: int) returns (r: Option<PoError>)
      modifies this`orders
      ensures Performed(old(State()), Op.MarkEmailSent(id, messageId, now), r)
    {
      if id >= |orders| {
        return Some(NotFound);
      }
      var po := orders[id];
      if po.status != Approved && po.status != Sent {
        return Some(ValidationFailed);
      }
      po := po.(status := EmailSent, sentAt := Some(now));
      if messageId.Some? && messageId.value != "" {
        po := po.(messageId := messageId);
      }
      orders := orders[id := po];
      r := None;
    }

    method MarkWaiting(id: nat) returns (r: Option<PoError>)
      modifies this`orders
      ensures Performed(old(State()), Op.MarkWaiting(id), r)
    {
      if id >= |orders| {
        return Some(NotFound);
      }
      if orders[id].status != EmailSent {
        return Some(ValidationFailed);
      }
      orders := orders[id := orders[id].(status := WaitingConfirmation)];
      r := None;
    }

    method MarkConfirmed(id: nat, now: int) returns (r: Option<PoError>)
      modifies this`orders
      ensures Performed(old(State()), Op.MarkConfirmed(id, now), r)
    {
      if id >= |orders| {
        return Some(NotFound);
      }
      if orders[id].status != WaitingConfirmation {
        return Some(ValidationFailed);
      }
      orders := orders[id := orders[id].(status := Confirmed, confirmedAt := Some(now))];
      r := None;
    }

    method MarkFailed(id: nat, error: string) returns (r: Option<PoError>)
      modifies this`orders
      ensures Performed(old(State()), Op.MarkFailed(id, error), r)
    {
      if id >= |orders| {
        return Some(NotFound);
      }
      var notes := if error != "" then error else orders[id].notes;
      orders := orders[id := orders[id].(status := Failed, notes := notes)];
      r := None;
    }

    method MarkTimeout(id: nat) returns (r: Option<PoError>)
      modifies this`orders
      ensures Performed(old(State()), Op.MarkTimeout(id), r)
    {
      if id >= |orders| {
        return Some(NotFound);
      }
      orders := orders[id := orders[id].(status := TimedOut)];
      r := None;
    }

    method TransitionPoStatus(id: nat, target: Status, now: int) returns (r: Option<PoError>)
      modifies this`orders
      ensures Performed(old(State()), TransitionTo(id, target, now), r)
    {
      if id >= |orders| {
        return Some(NotFound);
      }
      var po := orders[id];
      if target !in Allowed(po.status) {
        return Some(IllegalTransition);
      }
      po := po.(status := target);
      if target == Confirmed {
        po := po.(confirmedAt := Some(now));
      }
      orders := orders[id := po];
      r := None;
    }

    // EmailSendTool.run: the status gate, then the queue.
    method RunEmailTool(id: nat, queueUp: bool, messageId: string) returns (r: Option<PoError>)
      modifies this`outbox
      ensures Performed(old(State()), Op.RunEmailTool(id, queueUp, messageId), r)
    {
      if id >= |orders| {
        return Some(NotFound);
      }
      if orders[id].status != Approved && orders[id].status != Sent {
        return Some(ValidationFailed);
      }
      if !queueUp {
        return Some(ValidationFailed);
      }
      outbox := outbox + [Mail(id, messageId)];
      r := None;
    }

    // check_supplier_timeouts: newest first, overwrite every stale order and report its key; a row
    // that fails is skipped.
    method CheckSupplierTimeouts(sweep: Sweep) returns (timedOut: seq<nat>)
      modifies this`orders
      ensures orders == Expire(old(orders), sweep)
      ensures timedOut == Report(old(orders), 0, sweep)
    {
      timedOut := [];
      var before, i := orders, |orders|;
      while i > 0
        invariant 0 <= i <= |orders| == |before|
        invariant forall k :: i <= k < |before| ==> orders[k] == SweptRow(before[k], k, sweep)
        invariant forall k :: 0 <= k < i ==> orders[k] == before[k]
        invariant timedOut == Report(before, i, sweep)
      {
        i := i - 1;
        var saved := ExpireOrder(i, sweep);
        if saved {
          timedOut := timedOut + [i];
        }
      }
    }

    // The body of its loop.
    method ExpireOrder(i: nat, sweep: Sweep) returns (saved: bool)
      requires i < |orders|
      modifies this`orders
      ensures orders == old(orders)[i := SweptRow(old(orders)[i], i, sweep)]
      ensures saved == Swept(old(orders)[i], i, sweep)
    {
      saved := IsStale(orders[i], sweep.now) && i !in sweep.unsaved;
      if saved {
        orders := orders[i := ExpiredRow(orders[i], sweep.detectedAt(i))];
      }
    }

    // The call behaved as `Apply` says: it returned normally with the new tables, or it
    // raised that error and changed nothing.
    ghost predicate Performed(before: Database, op: Op, r: Option<PoError>)
      reads this
    {
      match Apply(before, op)
      case Ok(after) => r == None && State() == after
      case Err(e) => r == Some(e) && State() == before
    }
  }
}
