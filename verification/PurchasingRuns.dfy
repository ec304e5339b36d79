// What every run of purchasing service calls keeps, whatever the order of the calls and
// whatever their arguments.
module PurchasingRuns {
  import opened Wrappers
  import opened Purchasing

  // trace[i + 1] is what call ops[i] makes of trace[i].
  ghost predicate IsRun(trace: seq<Database>, ops: seq<Op>) {
    && |trace| == |ops| + 1
    && forall i :: 0 <= i < |ops| ==> trace[i + 1] == Step(trace[i], ops[i])
  }

  // A run that starts with no orders.
  ghost predicate IsRunFromEmpty(trace: seq<Database>, ops: seq<Op>) {
    IsRun(trace, ops) && trace[0] == Database([], [])
  }

  predicate HasOrder(db: Database, id: nat, s: Status) {
    id < |db.orders| && db.orders[id].status == s
  }

  // ----- Which status changes can happen at all -----

  // The legal moves: forward along the life of an order, out by cancelling while it is open, out by
  // rejecting before it is approved.
  predicate Legal(s: Status, t: Status) {
    || (t == Cancelled && s !in {Confirmed, Rejected, Cancelled, Failed, TimedOut})
    || (t == Rejected && s in {Draft, PendingApproval})
    || (t == PendingApproval && s == Draft)
    || (t == Approved && s in {Draft, PendingApproval})
    || (t in {Sent, EmailSent} && s == Approved)
    || (t == WaitingConfirmation && s == EmailSent)
    || (t == Confirmed && s in {Sent, WaitingConfirmation})
  }

  lemma TableExactly(s: Status, t: Status)
    ensures t in Allowed(s) <==> Legal(s, t)
  {
  }

  // The open statuses are those the table gives a way out of, the active ones those before sending.
  lemma StatusClasses(s: Status)
    ensures IsOpen(s) <==> s !in {Confirmed, Rejected, Cancelled, Failed, TimedOut}
    ensures IsOpen(s) <==> Allowed(s) != {}
    ensures IsActive(s) <==> s in {Draft, PendingApproval, Approved}
    ensures IsActive(s) <==> Approved in Allowed(s) || EmailSent in Allowed(s)
  {
    assert IsOpen(s) ==> Cancelled in Allowed(s);
  }

  // The legal moves, the extra edge of mark_email_sent, and the two unguarded calls.
  predicate CanMove(s: Status, t: Status) {
    s == t || Legal(s, t) || (s == Sent && t == EmailSent) || t == Failed || t == TimedOut
  }

  ghost predicate Moves(db: Database, op: Op, id: nat, s: Status, t: Status) {
    HasOrder(db, id, s) && HasOrder(Step(db, op), id, t)
  }

  // One call changes a row's status only along `CanMove`, never its key, and never removes it.
  lemma RowKeepsKey(db: Database, op: Op, id: nat)
    requires id < |db.orders|
    ensures id < |Step(db, op).orders|
    ensures var a, b := db.orders[id], Step(db, op).orders[id];
            a.sku == b.sku && a.supplier == b.supplier && a.quantity == b.quantity && CanMove(a.status, b.status)
  {
  }

  function SampleOrder(s: Status): PurchaseOrder {
    NewOrder(1, 1, 1).(status := s)
  }

  // The edges of `CanMove` are exactly the status changes some call can make.
  lemma StatusMovesExactly(s: Status, t: Status)
    ensures CanMove(s, t) <==> exists db, op, id :: Moves(db, op, id, s, t)
  {
    if CanMove(s, t) {
      var db := Database([SampleOrder(s)], []);
      var op :=
        if s == t then RejectPo(1)
        else if t == Failed then MarkFailed(0, "")
        else if t == TimedOut then MarkTimeout(0)
        else if Legal(s, t) then TransitionTo(0, t, 0)
        else MarkEmailSent(0, None, 0);
      TableExactly(s, t);
      assert Moves(db, op, 0, s, t);
    }
    forall db, op, id | Moves(db, op, id, s, t)
      ensures CanMove(s, t)
    {
      RowKeepsKey(db, op, id);
    }
  }

  // The status a dedicated call is named for.
  function TargetOf(op: Op): Option<Status> {
    match op
    case ApprovePo(_, _, _, _) => Some(Approved)
    case RejectPo(_) => Some(Rejected)
    case SendPo(_, _) => Some(Sent)
    case MarkEmailSent(_, _, _) => Some(EmailSent)
    case MarkWaiting(_) => Some(WaitingConfirmation)
    case MarkConfirmed(_, _) => Some(Confirmed)
    case MarkFailed(_, _) => Some(Failed)
    case MarkTimeout(_) => Some(TimedOut)
    case _ => None
  }

  // The guards written into the dedicated calls against the legal table: they agree except on
  // email_sent from sent (allowed by the call only), on confirmed from sent (allowed by the table
  // only), and on the two unguarded calls.
  lemma GuardsAgainstTable(db: Database, op: Op)
    requires TargetOf(op).Some? && op.id < |db.orders|
    ensures var s, t := db.orders[op.id].status, TargetOf(op).value;
            Apply(db, op).Ok? != TransitionAllowed(db, op.id, t)
            <==> (s == Sent && t in {EmailSent, Confirmed}) || t in {Failed, TimedOut}
  {
    var s := db.orders[op.id].status;
    assert TransitionAllowed(db, op.id, TargetOf(op).value) <==> TargetOf(op).value in Allowed(s);
    assert Failed !in Allowed(s) && TimedOut !in Allowed(s);
  }

  predicate TransitionAllowed(db: Database, id: nat, t: Status) {
    Apply(db, TransitionTo(id, t, 0)).Ok?
  }

  // A dedicated call that succeeds leaves its order in the status it is named for, and every other
  // order as it was.
  lemma DedicatedCallTouchesOneOrder(db: Database, op: Op, i: nat)
    requires TargetOf(op).Some? && Apply(db, op).Ok? && i < |db.orders|
    ensures |Step(db, op).orders| == |db.orders|
    ensures if i == op.id then Step(db, op).orders[i].status == TargetOf(op).value else Step(db, op).orders[i] == db.orders[i]
  {
  }

  // A confirmed order can still be failed: the terminal statuses are not absorbing.
  lemma ConfirmedIsNotFinal()
    ensures Moves(Database([SampleOrder(Confirmed)], []), MarkFailed(0, "late"), 0, Confirmed, Failed)
  {
  }

  // Which calls change the status of an order the legal table gives no way out of: exactly the two
  // unguarded ones, on an order not already in their status.
  lemma TerminalChangesExactly(db: Database, op: Op, id: nat)
    requires id < |db.orders| && Allowed(db.orders[id].status) == {}
    ensures id < |Step(db, op).orders|
    ensures var s := db.orders[id].status;
            Step(db, op).orders[id].status != s <==>
              || (op.MarkFailed? && op.id == id && s != Failed)
              || (op.MarkTimeout? && op.id == id && s != TimedOut)
  {
    RowKeepsKey(db, op, id);
  }

  // No call brings a closed order back to an open status, nor an inactive one back to an active status.
  lemma ClosedStaysClosed(db: Database, op: Op, id: nat)
    requires id < |db.orders|
    ensures id < |Step(db, op).orders|
    ensures !IsOpen(db.orders[id].status) ==> !IsOpen(Step(db, op).orders[id].status)
    ensures !IsActive(db.orders[id].status) ==> !IsActive(Step(db, op).orders[id].status)
  {
    RowKeepsKey(db, op, id);
  }

  // Only a drafting call that finds no active order adds a row, and the row is a draft.
  lemma RowsAddedOnlyByDraft(db: Database, op: Op)
    ensures |db.orders| <= |Step(db, op).orders| <= |db.orders| + 1
    ensures |Step(db, op).orders| > |db.orders| ==>
              && op.DraftPo?
              && Step(db, op).orders == db.orders + [NewOrder(op.sku, op.supplier, op.quantity)]
              && forall i :: 0 <= i < |db.orders| ==> !ActiveMatch(db.orders[i], op.sku, op.supplier, op.quantity)
  {
  }

  // The new row is the draft asked for, with nothing recorded yet.
  lemma DraftIsAsAsked(db: Database, op: Op)
    requires |Step(db, op).orders| > |db.orders|
    ensures op.DraftPo?
    ensures var po := Step(db, op).orders[|db.orders|];
            && po.sku == op.sku && po.supplier == op.supplier && po.quantity == op.quantity && po.status == Draft
            && po.approvedBy == None && po.sentAt == None && po.messageId == None && po.confirmedAt == None && po.notes == ""
    ensures DraftResult(db, op.sku, op.supplier, op.quantity, op.rowAccepted) == Ok((Step(db, op), |db.orders|))
    ensures Step(db, op).orders[..|db.orders|] == db.orders && Step(db, op).outbox == db.outbox
  {
  }

  // ----- What a call writes, field by field -----

  // The call succeeds on the order.
  predicate Succeeds(db: Database, op: Op, id: nat) {
    !op.DraftPo? && !op.ExpireStale? && op.id == id && Apply(db, op).Ok?
  }

  // Each field of an order is written by the calls named here and by no other, and with the value given.
  lemma FieldsWritten(db: Database, op: Op, id: nat)
    requires id < |db.orders| && Succeeds(db, op, id)
    ensures id < |Step(db, op).orders|
    ensures var po, after := db.orders[id], Step(db, op).orders[id];
            && after.approvedBy == (if op.ApprovePo? then Some(op.user) else po.approvedBy)
            && after.sentAt == (if op.SendPo? || op.MarkEmailSent? then Some(op.now) else po.sentAt)
            && after.messageId == (if op.MarkEmailSent? && op.messageId.Some? && op.messageId != Some("") then op.messageId else po.messageId)
            && after.confirmedAt == (if op.MarkConfirmed? || (op.TransitionTo? && op.target == Confirmed) then Some(op.now) else po.confirmedAt)
            && after.notes == (if op.MarkFailed? && op.error != "" then op.error else po.notes)
  {
  }

  // The email tool hands over one mail with the id it was given, and touches no order.
  lemma ToolMailWritten(db: Database, op: Op, id: nat)
    requires Succeeds(db, op, id) && op.RunEmailTool?
    ensures Step(db, op) == db.(outbox := db.outbox + [Mail(id, op.mailId)])
  {
  }

  // An approval queues one mail exactly when it is asked to, the mail can be handed over, and the
  // order carries no message id yet.
  lemma ApprovalMailExactly(db: Database, id: nat, user: int, skipEmail: bool, deliverable: bool)
    requires id < |db.orders| && db.orders[id].status in {Draft, PendingApproval}
    ensures Step(db, ApprovePo(id, user, skipEmail, deliverable)).outbox
         == if !skipEmail && deliverable && db.orders[id].messageId in {None, Some("")}
            then db.outbox + [Mail(id, "po-" + Decimal(id) + "-approved")] else db.outbox
  {
  }

  // Which exception a refused call raises.
  lemma ErrorExactly(db: Database, op: Op)
    ensures var r := Apply(db, op);
            && (r == Err(NotFound) <==> !op.DraftPo? && !op.ExpireStale? && op.id >= |db.orders|)
            && (r == Err(RowRefused) ==> op.DraftPo? && !op.rowAccepted)
            && (r == Err(IllegalTransition) ==> op.ApprovePo? || op.RejectPo? || op.TransitionTo?)
            && (r == Err(ValidationFailed) ==>
                  op.SendPo? || op.MarkEmailSent? || op.MarkWaiting? || op.MarkConfirmed? || op.RunEmailTool?)
            && (op.MarkFailed? || op.MarkTimeout? ==> r.Ok? || r == Err(NotFound))
  {
  }

  // ----- The timeout sweep -----

  // An order is timed out by a sweep exactly when it waits for its supplier, was sent 48 hours
  // (172800000000 microseconds) or more before the sweep's clock, and can be saved.
  predicate TimesOut(po: PurchaseOrder, i: nat, sweep: Sweep) {
    && po.status in {EmailSent, WaitingConfirmation}
    && po.sentAt.Some? && sweep.now - po.sentAt.value >= 172800000000
    && i !in sweep.unsaved
  }

  function TimeoutNote(detectedAt: string): string {
    "Timed out: no supplier response within 48 hours (detected at " + detectedAt + ")"
  }

  lemma SweepExactly(db: Database, sweep: Sweep, i: nat)
    requires i < |db.orders|
    ensures var po, after := db.orders[i], Step(db, ExpireStale(sweep)).orders[i];
            if TimesOut(po, i, sweep)
            then after == po.(status := TimedOut, notes := (if po.notes == "" then "" else po.notes + "\n") + TimeoutNote(sweep.detectedAt(i)))
            else after == po
    ensures Step(db, ExpireStale(sweep)).outbox == db.outbox
    ensures i in Report(db.orders, 0, sweep) <==> TimesOut(db.orders[i], i, sweep)
  {
  }

  // ----- The partial unique constraint -----

  predicate SameKey(a: PurchaseOrder, b: PurchaseOrder) {
    a.sku == b.sku && a.supplier == b.supplier && a.quantity == b.quantity
  }

  // At most one order per (sku, supplier, quantity) is in draft, pending_approval or approved.
  ghost predicate OneActivePerKey(db: Database) {
    forall i, j :: 0 <= i < j < |db.orders| && SameKey(db.orders[i], db.orders[j])
                   ==> !(IsActive(db.orders[i].status) && IsActive(db.orders[j].status))
  }

  // uq_active_po_per_sku_supplier_qty
  ghost predicate UniqueConstraint(db: Database) {
    forall i, j :: 0 <= i < j < |db.orders| && SameKey(db.orders[i], db.orders[j])
                   && db.orders[i].status == db.orders[j].status
                   ==> db.orders[i].status !in {Draft, PendingApproval, Approved}
  }

  lemma OneActiveStep(db: Database, op: Op)
    requires OneActivePerKey(db)
    ensures OneActivePerKey(Step(db, op))
  {
    var after := Step(db, op);
    RowsAddedOnlyByDraft(db, op);
    forall i, j | 0 <= i < j < |after.orders| && SameKey(after.orders[i], after.orders[j])
      ensures !(IsActive(after.orders[i].status) && IsActive(after.orders[j].status))
    {
      RowKeepsKey(db, op, i);
      ClosedStaysClosed(db, op, i);
      if j < |db.orders| {
        RowKeepsKey(db, op, j);
        ClosedStaysClosed(db, op, j);
      }
    }
  }

  lemma {:induction false} OneActiveAlways(trace: seq<Database>, ops: seq<Op>, n: nat)
    requires IsRunFromEmpty(trace, ops) && n < |trace|
    ensures OneActivePerKey(trace[n])
  {
    if n > 0 {
      OneActiveAlways(trace, ops, n - 1);
      OneActiveStep(trace[n - 1], ops[n - 1]);
      assert trace[n - 1 + 1] == Step(trace[n - 1], ops[n - 1]);
    }
  }

  // In every run the constraint holds after every call, so no status update can violate it.
  lemma UniqueConstraintNeverViolated(trace: seq<Database>, ops: seq<Op>, n: nat)
    requires IsRunFromEmpty(trace, ops) && n < |trace|
    ensures UniqueConstraint(trace[n])
  {
    OneActiveAlways(trace, ops, n);
    var db := trace[n];
    forall i, j | 0 <= i < j < |db.orders| && SameKey(db.orders[i], db.orders[j])
                  && db.orders[i].status == db.orders[j].status
      ensures db.orders[i].status !in {Draft, PendingApproval, Approved}
    {
      StatusClasses(db.orders[i].status);
    }
  }

  // Re-drafting while an order for the key is active returns that very order and adds nothing.
  lemma RedraftReturnsTheActiveOrder(db: Database, id: nat, rowAccepted: bool)
    requires OneActivePerKey(db)
    requires id < |db.orders| && IsActive(db.orders[id].status)
    ensures var po := db.orders[id];
            DraftResult(db, po.sku, po.supplier, po.quantity, rowAccepted) == Ok((db, id))
  {
    var po := db.orders[id];
    var r := LastActive(db.orders, |db.orders|, po.sku, po.supplier, po.quantity);
    if r.None? || r.value < id {
      assert ActiveMatch(db.orders[id], po.sku, po.supplier, po.quantity);
    } else if r.value > id {
      assert SameKey(db.orders[id], db.orders[r.value]);
    }
  }

  // ----- A human approved before anything reached the supplier -----

  // The call is one of the two that write `approved`.
  predicate Approves(op: Op, id: nat) {
    (op.ApprovePo? && op.id == id) || (op.TransitionTo? && op.id == id && op.target == Status.Approved)
  }

  lemma StepIntoApproved(db: Database, op: Op, id: nat)
    requires HasOrder(Step(db, op), id, Approved) && !HasOrder(db, id, Approved)
    ensures id < |db.orders| && Approves(op, id)
  {
    RowsAddedOnlyByDraft(db, op);
  }

  // Every order beyond approval was in `approved` at an earlier point of the run.
  lemma {:induction false} SuppliedOnlyAfterApproved(trace: seq<Database>, ops: seq<Op>, n: nat, id: nat) returns (k: nat)
    requires IsRunFromEmpty(trace, ops) && n < |trace|
    requires id < |trace[n].orders| && BeyondApproval(trace[n].orders[id].status)
    ensures 0 < k < n && HasOrder(trace[k], id, Approved)
  {
    var before := trace[n - 1];
    RowsAddedOnlyByDraft(before, ops[n - 1]);
    RowKeepsKey(before, ops[n - 1], id);
    if before.orders[id].status == Approved {
      k := n - 1;
    } else {
      k := SuppliedOnlyAfterApproved(trace, ops, n - 1, id);
    }
  }

  // ... and it got there by an approving call.
  lemma {:induction false} ApprovedOnlyByApproval(trace: seq<Database>, ops: seq<Op>, n: nat, id: nat) returns (k: nat)
    requires IsRunFromEmpty(trace, ops) && n < |trace| && HasOrder(trace[n], id, Approved)
    ensures k < n && Approves(ops[k], id) && HasOrder(trace[k + 1], id, Approved)
  {
    if HasOrder(trace[n - 1], id, Approved) {
      k := ApprovedOnlyByApproval(trace, ops, n - 1, id);
    } else {
      StepIntoApproved(trace[n - 1], ops[n - 1], id);
      k := n - 1;
    }
  }

  // What a row records of its past: who approved it, when it was sent, when it was confirmed.
  datatype Stamp = Approver | SendTime | ConfirmTime

  predicate HasStamp(po: PurchaseOrder, stamp: Stamp) {
    match stamp
    case Approver => po.approvedBy.Some?
    case SendTime => po.sentAt.Some?
    case ConfirmTime => po.confirmedAt.Some?
  }

  // The call succeeds and is one of those that leave this stamp on the order.
  predicate Leaves(db: Database, op: Op, id: nat, stamp: Stamp) {
    && !op.DraftPo? && !op.ExpireStale? && op.id == id && Apply(db, op).Ok?
    && match stamp
       case Approver => op.ApprovePo?
       case SendTime => op.SendPo? || op.MarkEmailSent?
       case ConfirmTime => op.MarkConfirmed? || (op.TransitionTo? && op.target == Confirmed)
  }

  lemma StampStep(db: Database, op: Op, id: nat, stamp: Stamp)
    requires id < |db.orders|
    ensures id < |Step(db, op).orders|
    ensures HasStamp(Step(db, op).orders[id], stamp) <==> HasStamp(db.orders[id], stamp) || Leaves(db, op, id, stamp)
  {
  }

  ghost predicate Stamped(trace: seq<Database>, ops: seq<Op>, n: nat, id: nat, stamp: Stamp)
    requires n < |trace| == |ops| + 1
  {
    exists k :: 0 <= k < n && Leaves(trace[k], ops[k], id, stamp)
  }

  // An order names an approver (a send time, a confirmation time) exactly when some call of the
  // run approved it for a user (sent it, confirmed it).
  lemma {:induction false} StampsRecordedExactly(trace: seq<Database>, ops: seq<Op>, n: nat, id: nat, stamp: Stamp)
    requires IsRunFromEmpty(trace, ops) && n < |trace| && id < |trace[n].orders|
    ensures HasStamp(trace[n].orders[id], stamp) <==> Stamped(trace, ops, n, id, stamp)
  {
    var before, op := trace[n - 1], ops[n - 1];
    RowsAddedOnlyByDraft(before, op);
    assert trace[n] == Step(before, op);
    if id < |before.orders| {
      StampsRecordedExactly(trace, ops, n - 1, id, stamp);
      StampStep(before, op, id, stamp);
      assert Stamped(trace, ops, n, id, stamp) <==> Stamped(trace, ops, n - 1, id, stamp) || Leaves(before, op, id, stamp);
    } else {
      NothingBeforeTheRow(trace, ops, n - 1, id);
    }
  }

  // In every run an order's approver is the user of the call that approved it.
  lemma {:induction false} ApproverIsTheUser(trace: seq<Database>, ops: seq<Op>, k: nat, n: nat, id: nat)
    requires IsRun(trace, ops) && k < n < |trace|
    requires ops[k].ApprovePo? && Succeeds(trace[k], ops[k], id)
    ensures id < |trace[n].orders| && trace[n].orders[id].approvedBy == Some(ops[k].user) && !Approvable(trace[n], id)
    decreases n
  {
    NextIsStep(trace, ops, n);
    if n == k + 1 {
      FieldsWritten(trace[k], ops[k], id);
    } else {
      ApproverIsTheUser(trace, ops, k, n - 1, id);
      ApproverKept(trace[n - 1], ops[n - 1], id);
    }
  }

  lemma ApproverKept(db: Database, op: Op, id: nat)
    requires id < |db.orders| && !Approvable(db, id)
    ensures id < |Step(db, op).orders| && !Approvable(Step(db, op), id)
    ensures Step(db, op).orders[id].approvedBy == db.orders[id].approvedBy
  {
    ApprovableStep(db, op, id);
    RowKeepsKey(db, op, id);
  }

  // A confirmed order always names its confirmation time.
  lemma {:induction false} ConfirmedIsStamped(trace: seq<Database>, ops: seq<Op>, n: nat, id: nat)
    requires IsRunFromEmpty(trace, ops) && n < |trace| && HasOrder(trace[n], id, Confirmed)
    ensures HasStamp(trace[n].orders[id], ConfirmTime)
  {
    RowsAddedOnlyByDraft(trace[n - 1], ops[n - 1]);
    if HasOrder(trace[n - 1], id, Confirmed) {
      ConfirmedIsStamped(trace, ops, n - 1, id);
    }
  }

  // No call on an order succeeds before its row exists.
  lemma {:induction false} NothingBeforeTheRow(trace: seq<Database>, ops: seq<Op>, n: nat, id: nat)
    requires IsRunFromEmpty(trace, ops) && n < |trace| && id >= |trace[n].orders|
    ensures forall k :: 0 <= k <= n ==> id >= |trace[k].orders|
  {
    if n > 0 {
      RowsAddedOnlyByDraft(trace[n - 1], ops[n - 1]);
      NothingBeforeTheRow(trace, ops, n - 1, id);
    }
  }

  // Not every approved order names one: the legal table lets a draft become approved with no user.
  lemma ApprovalWithoutUser()
    ensures var db := Step(Step(Database([], []), DraftPo(1, 1, 5, true)), TransitionTo(0, Status.Approved, 0));
            HasOrder(db, 0, Approved) && db.orders[0].approvedBy.None?
  {
    var db := Step(Database([], []), DraftPo(1, 1, 5, true));
    assert db.orders == [NewOrder(1, 1, 5)];
  }

  // ----- Dispatch to the supplier -----

  // Messages are never withdrawn, and one call adds at most one: the email tool for an order it
  // finds approved or sent, or an approval for the order it has just approved.
  lemma DispatchOnlyWhenApproved(db: Database, op: Op)
    ensures var after := Step(db, op);
            || after.outbox == db.outbox
            || exists mail ::
                 && after.outbox == db.outbox + [mail]
                 && mail.po < |db.orders|
                 && ((op.RunEmailTool? && db.orders[mail.po].status in {Approved, Sent} && after.orders == db.orders)
                     || (op.ApprovePo? && after.orders[mail.po].status == Approved))
  {
    var after := Step(db, op);
    if after.outbox != db.outbox {
      var mail := if op.ApprovePo? then ApprovalMail(op.id) else Mail(op.id, op.mailId);
      assert after.outbox == db.outbox + [mail];
    }
  }

  // No message goes out for an order that was not in `approved` by then.
  lemma {:induction false} MailOnlyAfterApproved(trace: seq<Database>, ops: seq<Op>, n: nat, m: nat) returns (k: nat)
    requires IsRunFromEmpty(trace, ops) && n < |trace| && m < |trace[n].outbox|
    ensures 0 < k <= n && HasOrder(trace[k], trace[n].outbox[m].po, Approved)
  {
    var before := trace[n - 1];
    DispatchOnlyWhenApproved(before, ops[n - 1]);
    if m < |before.outbox| {
      k := MailOnlyAfterApproved(trace, ops, n - 1, m);
    } else {
      var id := trace[n].outbox[m].po;
      if HasOrder(trace[n], id, Approved) {
        k := n;
      } else {
        assert before.orders[id].status == Sent;
        k := SuppliedOnlyAfterApproved(trace, ops, n - 1, id);
      }
    }
  }

  predicate UnmailedBeforeEmailSent(po: PurchaseOrder) {
    po.status in {Draft, PendingApproval, Approved, Sent} ==> po.messageId.None?
  }

  // The duplicate-mail guard in the approval path never fires: an order that can still be
  // approved, or that was just approved, never carries a message id.
  lemma {:induction false} DuplicateMailGuardNeverFires(trace: seq<Database>, ops: seq<Op>, n: nat, id: nat)
    requires IsRunFromEmpty(trace, ops) && n < |trace| && id < |trace[n].orders|
    ensures UnmailedBeforeEmailSent(trace[n].orders[id])
  {
    var before, op := trace[n - 1], ops[n - 1];
    RowsAddedOnlyByDraft(before, op);
    if id < |before.orders| {
      DuplicateMailGuardNeverFires(trace, ops, n - 1, id);
      RowKeepsKey(before, op, id);
    }
  }

  // ----- Supplier timeouts -----

  predicate AwaitsSupplier(s: Status) {
    s in {EmailSent, WaitingConfirmation}
  }

  // An order waiting for its supplier is eventually picked up by the timeout task exactly when
  // `send_po` or `mark_email_sent` brought it there.
  lemma ExpiresEventuallyIff(trace: seq<Database>, ops: seq<Op>, n: nat, id: nat)
    requires IsRunFromEmpty(trace, ops) && n < |trace| && id < |trace[n].orders|
    requires AwaitsSupplier(trace[n].orders[id].status)
    ensures (exists now :: IsStale(trace[n].orders[id], now)) <==> Stamped(trace, ops, n, id, SendTime)
  {
    StampsRecordedExactly(trace, ops, n, id, SendTime);
    var po := trace[n].orders[id];
    if po.sentAt.Some? {
      assert IsStale(po, po.sentAt.value + TIMEOUT_WINDOW);
    }
  }

  // Through the status table an approved order becomes email_sent with no send time ...
  lemma TableMoveHasNoSendTime(db: Database, id: nat, t0: int)
    requires HasOrder(db, id, Approved) && db.orders[id].sentAt.None?
    ensures Unsendable(Step(db, TransitionTo(id, Status.EmailSent, t0)), id)
  {
  }

  // The order has no send time and is past the statuses in which one can be recorded.
  predicate Unsendable(db: Database, id: nat) {
    id < |db.orders| && db.orders[id].sentAt.None? && db.orders[id].status !in {Draft, PendingApproval, Approved, Sent}
  }

  lemma NextIsStep(trace: seq<Database>, ops: seq<Op>, n: nat)
    requires IsRun(trace, ops) && 0 < n < |trace|
    ensures trace[n] == Step(trace[n - 1], ops[n - 1])
  {
    assert trace[(n - 1) + 1] == Step(trace[n - 1], ops[n - 1]);
  }

  lemma UnsendableNext(db: Database, op: Op, id: nat)
    requires Unsendable(db, id)
    ensures Unsendable(Step(db, op), id)
  {
    StampStep(db, op, id, SendTime);
    RowKeepsKey(db, op, id);
  }

  lemma UnsendableAt(trace: seq<Database>, ops: seq<Op>, n: nat, id: nat)
    requires IsRun(trace, ops) && 0 < n < |trace|
    ensures Unsendable(trace[n - 1], id) ==> Unsendable(trace[n], id)
  {
    NextIsStep(trace, ops, n);
    if Unsendable(trace[n - 1], id) {
      UnsendableNext(trace[n - 1], ops[n - 1], id);
    }
  }

  // ... and stays so, whatever is called in whatever order, ...
  lemma {:induction false} UnsendableStays(trace: seq<Database>, ops: seq<Op>, m: nat, n: nat, id: nat)
    requires IsRun(trace, ops) && m <= n < |trace| && Unsendable(trace[m], id)
    ensures Unsendable(trace[n], id)
    decreases n
  {
    if m < n {
      UnsendableStays(trace, ops, m, n - 1, id);
      UnsendableAt(trace, ops, n, id);
    }
  }

  lemma SweepSkipsUnsendable(db: Database, id: nat, sweep: Sweep)
    requires Unsendable(db, id)
    ensures Expire(db.orders, sweep)[id] == db.orders[id]
  {
  }

  // ... so that no timeout check ever touches it.
  lemma TableMoveNeverExpires(trace: seq<Database>, ops: seq<Op>, m: nat, n: nat, id: nat, sweep: Sweep)
    requires IsRun(trace, ops) && m <= n < |trace| && Unsendable(trace[m], id)
    ensures Unsendable(trace[n], id) && Expire(trace[n].orders, sweep)[id] == trace[n].orders[id]
  {
    UnsendableStays(trace, ops, m, n, id);
    SweepSkipsUnsendable(trace[n], id, sweep);
  }

  // ----- How many mails an order gets -----

  function MailsTo(outbox: seq<Mail>, id: nat): nat {
    if |outbox| == 0 then 0
    else MailsTo(outbox[..|outbox| - 1], id) + if outbox[|outbox| - 1].po == id then 1 else 0
  }

  // The two calls that mail the supplier of an order: an approval that is asked to, and the email tool.
  predicate MailsApproved(db: Database, op: Op, id: nat) {
    op.ApprovePo? && op.id == id && !op.skipEmail && op.deliverable && Apply(db, op).Ok?
  }

  predicate MailsByTool(db: Database, op: Op, id: nat) {
    op.RunEmailTool? && op.id == id && Apply(db, op).Ok?
  }

  // How often the first n calls did either.
  function ApprovalMails(trace: seq<Database>, ops: seq<Op>, n: nat, id: nat): nat
    requires n <= |ops| < |trace|
  {
    if n == 0 then 0
    else ApprovalMails(trace, ops, n - 1, id) + if MailsApproved(trace[n - 1], ops[n - 1], id) then 1 else 0
  }

  function ToolMails(trace: seq<Database>, ops: seq<Op>, n: nat, id: nat): nat
    requires n <= |ops| < |trace|
  {
    if n == 0 then 0
    else ToolMails(trace, ops, n - 1, id) + if MailsByTool(trace[n - 1], ops[n - 1], id) then 1 else 0
  }

  lemma MailsAppend(outbox: seq<Mail>, mail: Mail, id: nat)
    ensures MailsTo(outbox + [mail], id) == MailsTo(outbox, id) + if mail.po == id then 1 else 0
  {
    assert (outbox + [mail])[..|outbox|] == outbox;
  }

  // No order that can still be approved carries a message id.
  predicate GuardIsOpen(db: Database) {
    forall i :: 0 <= i < |db.orders| ==> UnmailedBeforeEmailSent(db.orders[i])
  }

  lemma GuardAlwaysOpen(trace: seq<Database>, ops: seq<Op>, n: nat)
    requires IsRunFromEmpty(trace, ops) && n < |trace|
    ensures GuardIsOpen(trace[n])
  {
    var db := trace[n];
    forall i | 0 <= i < |db.orders|
      ensures UnmailedBeforeEmailSent(db.orders[i])
    {
      DuplicateMailGuardNeverFires(trace, ops, n, i);
    }
  }

  // One call adds exactly the mail it is there for: the guard against a second one stops nothing.
  lemma MailStep(db: Database, op: Op, id: nat)
    requires GuardIsOpen(db)
    ensures MailsTo(Step(db, op).outbox, id)
         == MailsTo(db.outbox, id) + if MailsApproved(db, op, id) || MailsByTool(db, op, id) then 1 else 0
  {
    if op.ApprovePo? {
      MailsAppend(db.outbox, ApprovalMail(op.id), id);
    } else if op.RunEmailTool? {
      MailsAppend(db.outbox, Mail(op.id, op.mailId), id);
    }
  }

  // In every run an order's mails are counted exactly: one for each successful call of either kind.
  lemma {:induction false} MailsCountedExactly(trace: seq<Database>, ops: seq<Op>, n: nat, id: nat)
    requires IsRunFromEmpty(trace, ops) && n < |trace|
    ensures MailsTo(trace[n].outbox, id) == ApprovalMails(trace, ops, n, id) + ToolMails(trace, ops, n, id)
  {
    if n > 0 {
      MailsCountedExactly(trace, ops, n - 1, id);
      GuardAlwaysOpen(trace, ops, n - 1);
      MailStep(trace[n - 1], ops[n - 1], id);
      NextIsStep(trace, ops, n);
    }
  }

  predicate Approvable(db: Database, id: nat) {
    id < |db.orders| ==> db.orders[id].status in {Draft, PendingApproval}
  }

  lemma ApprovableStep(db: Database, op: Op, id: nat)
    ensures Approvable(Step(db, op), id) ==> Approvable(db, id)
    ensures MailsApproved(db, op, id) ==> Approvable(db, id) && !Approvable(Step(db, op), id)
  {
    RowsAddedOnlyByDraft(db, op);
    if id < |db.orders| {
      RowKeepsKey(db, op, id);
    }
  }

  // An order is approved at most once, so at most one of its mails comes from the approval.
  lemma {:induction false} ApprovalMailsAtMostOnce(trace: seq<Database>, ops: seq<Op>, n: nat, id: nat)
    requires IsRun(trace, ops) && n < |trace|
    ensures ApprovalMails(trace, ops, n, id) <= 1
    ensures Approvable(trace[n], id) ==> ApprovalMails(trace, ops, n, id) == 0
  {
    if n > 0 {
      ApprovalMailsAtMostOnce(trace, ops, n - 1, id);
      ApprovableStep(trace[n - 1], ops[n - 1], id);
      NextIsStep(trace, ops, n);
    }
  }

  // The call mails an order that was mailed before: what the guard was meant to stop.
  predicate MailsAgain(db: Database, op: Op, id: nat) {
    MailsTo(db.outbox, id) >= 1 && MailsByTool(db, op, id)
  }

  // Only an order past approval has mails, so an approval mail is never the second one.
  lemma UnmailedNext(db: Database, op: Op, id: nat)
    requires GuardIsOpen(db) && (Approvable(db, id) ==> MailsTo(db.outbox, id) == 0)
    ensures Approvable(Step(db, op), id) ==> MailsTo(Step(db, op).outbox, id) == 0
  {
    ApprovableStep(db, op, id);
    MailStep(db, op, id);
  }

  lemma {:induction false} ApprovableIsUnmailed(trace: seq<Database>, ops: seq<Op>, n: nat, id: nat)
    requires IsRunFromEmpty(trace, ops) && n < |trace|
    ensures Approvable(trace[n], id) ==> MailsTo(trace[n].outbox, id) == 0
  {
    if n > 0 {
      ApprovableIsUnmailed(trace, ops, n - 1, id);
      GuardAlwaysOpen(trace, ops, n - 1);
      UnmailedNext(trace[n - 1], ops[n - 1], id);
      NextIsStep(trace, ops, n);
    }
  }

  lemma OneMailStep(db: Database, op: Op, id: nat)
    requires GuardIsOpen(db) && (Approvable(db, id) ==> MailsTo(db.outbox, id) == 0)
    ensures MailsTo(Step(db, op).outbox, id) <= 1 <==> MailsTo(db.outbox, id) <= 1 && !MailsAgain(db, op, id)
  {
    ApprovableStep(db, op, id);
    MailStep(db, op, id);
  }

  predicate MailedOnce(trace: seq<Database>, n: nat, id: nat)
    requires n < |trace|
  {
    MailsTo(trace[n].outbox, id) <= 1
  }

  predicate MailedAgainAt(trace: seq<Database>, ops: seq<Op>, k: nat, id: nat)
    requires k < |ops| < |trace|
  {
    MailsAgain(trace[k], ops[k], id)
  }

  lemma OneMailNext(trace: seq<Database>, ops: seq<Op>, n: nat, id: nat)
    requires IsRunFromEmpty(trace, ops) && n < |ops|
    ensures MailedOnce(trace, n + 1, id) <==> MailedOnce(trace, n, id) && !MailedAgainAt(trace, ops, n, id)
  {
    GuardAlwaysOpen(trace, ops, n);
    ApprovableIsUnmailed(trace, ops, n, id);
    OneMailStep(trace[n], ops[n], id);
    NextIsStep(trace, ops, n + 1);
  }

  ghost predicate NeverMailedAgain(trace: seq<Database>, ops: seq<Op>, n: nat, id: nat)
    requires n <= |ops| < |trace|
  {
    forall k :: 0 <= k < n ==> !MailedAgainAt(trace, ops, k, id)
  }

  lemma NeverMailedAgainNext(trace: seq<Database>, ops: seq<Op>, n: nat, id: nat)
    requires n < |ops| < |trace|
    ensures NeverMailedAgain(trace, ops, n + 1, id)
       <==> NeverMailedAgain(trace, ops, n, id) && !MailedAgainAt(trace, ops, n, id)
  {
  }

  // An order gets at most one mail exactly when the email tool never runs for an order already mailed.
  lemma {:induction false} OneMailExactly(trace: seq<Database>, ops: seq<Op>, n: nat, id: nat)
    requires IsRunFromEmpty(trace, ops) && n < |trace|
    ensures MailedOnce(trace, n, id) <==> NeverMailedAgain(trace, ops, n, id)
  {
    if n == 0 {
      assert trace[0].outbox == [];
    } else {
      OneMailExactly(trace, ops, n - 1, id);
      OneMailNext(trace, ops, n - 1, id);
      NeverMailedAgainNext(trace, ops, n - 1, id);
    }
  }

  // On a concrete run: an approval with a mail, then the email tool, and the supplier gets two.
  lemma TwoMails()
    ensures var db1 := Step(Database([], []), DraftPo(1, 1, 5, true));
            var db2 := Step(db1, ApprovePo(0, 3, false, true));
            MailsTo(Step(db2, RunEmailTool(0, true, "second")).outbox, 0) == 2
  {
    var db1 := Step(Database([], []), DraftPo(1, 1, 5, true));
    assert db1.orders == [NewOrder(1, 1, 5)];
    var db2 := Step(db1, ApprovePo(0, 3, false, true));
    MailsAppend([], ApprovalMail(0), 0);
    assert db2.outbox == [] + [ApprovalMail(0)];
    MailsAppend(db2.outbox, Mail(0, "second"), 0);
  }
}
