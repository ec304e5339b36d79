// The reorder pipeline: the decision agent raises reorder flags, the flag processor turns them
// into purchase orders, while people, the agent and the timeout task go on changing orders
// (ai/agents/decision_agent.py, ai/agents/po_from_flag_creator.py,
// apps/forecasting/pipeline_orchestrator.py, apps/forecasting/repositories.py).
module ReorderPipeline {
  import opened Sequences
  import opened Wrappers
  import opened Purchasing
  import opened PurchasingRuns
  import opened PurchasingAgents

  datatype FlagStatus = FlagOpen | FlagConsumed | FlagDismissed

  datatype Flag = Flag(sku: int, reorderRequired: bool, hasOpenPo: bool, status: FlagStatus)

  // ----- Reorder flags -----

  predicate OpenFor(f: Flag, sku: int) {
    f.sku == sku && f.status == FlagOpen
  }

  // The newest open flag for the SKU among the first n.
  function LastOpen(flags: seq<Flag>, n: nat, sku: int): (r: Option<nat>)
    requires n <= |flags|
    ensures r.Some? ==> r.value < n && OpenFor(flags[r.value], sku)
    ensures r.None? ==> forall i :: 0 <= i < n ==> !OpenFor(flags[i], sku)
  {
    if n == 0 then None
    else if OpenFor(flags[n - 1], sku) then Some(n - 1)
    else LastOpen(flags, n - 1, sku)
  }

  // `upsert_open_reorder_flag`: update the SKU's open flag, create one if there is none, and
  // raise (None) if there are several.
  function Upsert(flags: seq<Flag>, sku: int): Option<seq<Flag>> {
    var found := LastOpen(flags, |flags|, sku);
    if found.None? then Some(flags + [Flag(sku, true, false, FlagOpen)])
    else if LastOpen(flags, found.value, sku).Some? then None
    else Some(flags[found.value := Flag(sku, true, false, FlagOpen)])
  }

  predicate Creatable(f: Flag) {
    f.status == FlagOpen && f.reorderRequired && !f.hasOpenPo
  }

  // The query of `_run_po_creation_step`, newest first.
  function CreatableFlags(flags: seq<Flag>, n: nat): (r: seq<nat>)
    requires n <= |flags|
    ensures forall a :: 0 <= a < |r| ==> r[a] < n && Creatable(flags[r[a]])
    ensures forall i :: 0 <= i < n && Creatable(flags[i]) ==> i in r
    ensures forall a, b :: 0 <= a < b < |r| ==> r[b] < r[a]
  {
    if n == 0 then []
    else (if Creatable(flags[n - 1]) then [n - 1] else []) + CreatableFlags(flags, n - 1)
  }

  predicate HasOpenOrder(db: Database, sku: int) {
    exists i :: 0 <= i < |db.orders| && db.orders[i].sku == sku && IsOpen(db.orders[i].status)
  }

  // ----- Turning one flag into an order -----

  // How processing one flag goes: the outside answers, and where it stops.
  datatype FlagOutcome =
    | NoSupplier
    | Unusable                                          // the model's answer cannot be used
    | DraftRefused(supplier: int, quantity: int)        // the database refuses the draft
    | Completed(supplier: int, quantity: int)
    | LateFailure(supplier: int, quantity: int, stage: Stage)   // an exception after the draft is committed

  // How far such a run got: the draft, the workflow record, the move to pending_approval, or the
  // whole agent run, so that only closing its record or saving the flag failed.
  datatype Stage = Drafted | WorkflowCreated | OrderSubmitted | AgentReturned

  datatype Plant = Plant(desk: Desk, flags: seq<Flag>)

  datatype Verdict = VCreated | VSkipped | VFailed

  function AgentContext(sku: int, supplier: int, quantity: int, rowAccepted: bool): Context {
    Context(sku, supplier, quantity, rowAccepted, None, false, true, None)
  }

  // The tools are never reached: without a callback the run stops at the approval gate.
  function AgentRun(d: Desk, c: Config, sku: int, supplier: int, quantity: int, rowAccepted: bool, now: int): (Desk, Outcome) {
    Execute(d, c, AgentContext(sku, supplier, quantity, rowAccepted), OwnEmailTool(false, ""), OwnListener, now)
  }

  // Where the desk is left when the run is cut short.
  function Interrupted(d: Desk, c: Config, sku: int, supplier: int, quantity: int, stage: Stage, now: int): Desk {
    if stage == AgentReturned then AgentRun(d, c, sku, supplier, quantity, true, now).0
    else
      var (db, id) := DraftResult(d.db, sku, supplier, quantity, true).value;
      var d1 := d.(db := db);
      if stage == WorkflowCreated then d1.(workflows := Created(d1.workflows, id))
      else if stage == OrderSubmitted then Submitted(d1, id, now)
      else d1
  }

  // `_process_single_flag`
  function ProcessFlag(p: Plant, c: Config, f: nat, outcome: FlagOutcome, now: int): (Plant, Verdict)
    requires f < |p.flags|
  {
    match outcome
    case NoSupplier => (p, VSkipped)
    case Unusable => (p, VFailed)
    case LateFailure(supplier, quantity, stage) =>
      (p.(desk := Interrupted(p.desk, c, p.flags[f].sku, supplier, quantity, stage, now)), VFailed)
    case _ =>
      var (desk, result) := AgentRun(p.desk, c, p.flags[f].sku, outcome.supplier, outcome.quantity, outcome.Completed?, now);
      if result.Returned? && result.status != Failed
      then (Plant(desk, p.flags[f := p.flags[f].(status := FlagConsumed)]), VCreated)
      else (p.(desk := desk), VFailed)
  }

  // ----- The pipeline as a protocol -----

  // One pipeline runs at a time: it observes and decides, then creates from a fixed list of flags.
  datatype Phase = Idle | Deciding(observed: map<int, bool>) | Creating(queue: seq<nat>)

  datatype Pipe = Pipe(plant: Plant, phase: Phase)

  datatype PipeStep =
    | StartRun
    | Observe(sku: int)                       // the agent reads whether the SKU has an open order
    | Decide(sku: int, formula: bool)         // it decides, from what it read, and raises a flag
    | StartCreation
    | ProcessNext(outcome: FlagOutcome, now: int)
    | EndRun                                  // at the end, or when the run fails anywhere
    | Other(op: Op)                           // a person, the agent, the timeout task

  function PipeNext(p: Pipe, c: Config, s: PipeStep): Pipe {
    match s
    case StartRun => if p.phase.Idle? then p.(phase := Deciding(map[])) else p
    case Observe(sku) =>
      if p.phase.Deciding?
      then p.(phase := Deciding(p.phase.observed[sku := HasOpenOrder(p.plant.desk.db, sku)])) else p
    case Decide(sku, formula) =>
      if p.phase.Deciding? && sku in p.phase.observed && formula && !p.phase.observed[sku]
         && Upsert(p.plant.flags, sku).Some?
      then p.(plant := p.plant.(flags := Upsert(p.plant.flags, sku).value)) else p
    case StartCreation =>
      if p.phase.Deciding? then p.(phase := Creating(CreatableFlags(p.plant.flags, |p.plant.flags|))) else p
    case ProcessNext(outcome, now) =>
      if p.phase.Creating? && p.phase.queue != [] && p.phase.queue[0] < |p.plant.flags|
      then Pipe(ProcessFlag(p.plant, c, p.phase.queue[0], outcome, now).0, Creating(p.phase.queue[1..])) else p
    case EndRun => p.(phase := Idle)
    case Other(op) =>
      if op.DraftPo? then p
      else p.(plant := p.plant.(desk := p.plant.desk.(db := Step(p.plant.desk.db, op))))
  }

  ghost predicate OneOpenFlagPerSku(flags: seq<Flag>) {
    forall i, j :: 0 <= i < j < |flags| && flags[i].sku == flags[j].sku
                   ==> !(flags[i].status == FlagOpen && flags[j].status == FlagOpen)
  }

  ghost predicate NoFlagWithOpenOrder(p: Plant) {
    forall i :: 0 <= i < |p.flags| && p.flags[i].status == FlagOpen ==> !HasOpenOrder(p.desk.db, p.flags[i].sku)
  }

  ghost predicate OneOpenOrderPerSku(db: Database) {
    forall i, j :: 0 <= i < j < |db.orders| && db.orders[i].sku == db.orders[j].sku
                   ==> !(IsOpen(db.orders[i].status) && IsOpen(db.orders[j].status))
  }

  // What the pipeline promises about every SKU.
  ghost predicate Safe(p: Plant) {
    OneOpenFlagPerSku(p.flags) && NoFlagWithOpenOrder(p) && OneOpenOrderPerSku(p.desk.db)
  }

  // What it relies on in the middle of a run: an observation of "no open order" stays true, and
  // the flags still to be processed are open and distinct.
  ghost predicate PhaseInv(p: Pipe) {
    match p.phase
    case Idle => true
    case Deciding(observed) => forall sku :: sku in observed && !observed[sku] ==> !HasOpenOrder(p.plant.desk.db, sku)
    case Creating(queue) =>
      && (forall k :: 0 <= k < |queue| ==> queue[k] < |p.plant.flags| && p.plant.flags[queue[k]].status == FlagOpen)
      && forall a, b :: 0 <= a < b < |queue| ==> queue[b] < queue[a]
  }

  ghost predicate PipeInv(p: Pipe) {
    Safe(p.plant) && PhaseInv(p)
  }

  // A call other than drafting opens no order.
  lemma OtherOpensNothing(db: Database, op: Op, sku: int)
    requires !op.DraftPo?
    ensures HasOpenOrder(Step(db, op), sku) ==> HasOpenOrder(db, sku)
  {
    var after := Step(db, op);
    RowsAddedOnlyByDraft(db, op);
    if HasOpenOrder(after, sku) {
      var i :| 0 <= i < |after.orders| && after.orders[i].sku == sku && IsOpen(after.orders[i].status);
      RowKeepsKey(db, op, i);
      ClosedStaysClosed(db, op, i);
    }
  }

  lemma OtherKeepsOneOrder(db: Database, op: Op)
    requires OneOpenOrderPerSku(db)
    ensures !op.DraftPo? ==> OneOpenOrderPerSku(Step(db, op))
  {
    var after := Step(db, op);
    RowsAddedOnlyByDraft(db, op);
    if !op.DraftPo? {
      forall i, j | 0 <= i < j < |after.orders| && after.orders[i].sku == after.orders[j].sku
        ensures !(IsOpen(after.orders[i].status) && IsOpen(after.orders[j].status))
      {
        RowKeepsKey(db, op, i);
        RowKeepsKey(db, op, j);
        ClosedStaysClosed(db, op, i);
        ClosedStaysClosed(db, op, j);
      }
    }
  }

  lemma OtherKeepsInv(p: Pipe, c: Config, op: Op)
    requires PipeInv(p)
    ensures PipeInv(PipeNext(p, c, Other(op)))
  {
    if !op.DraftPo? {
      var db, after := p.plant.desk.db, Step(p.plant.desk.db, op);
      OtherKeepsOneOrder(db, op);
      forall sku
        ensures HasOpenOrder(after, sku) ==> HasOpenOrder(db, sku)
      {
        OtherOpensNothing(db, op, sku);
      }
    }
  }

  lemma DecideKeepsInv(p: Pipe, c: Config, sku: int, formula: bool)
    requires PipeInv(p)
    ensures PipeInv(PipeNext(p, c, Decide(sku, formula)))
  {
    var flags := p.plant.flags;
    if p.phase.Deciding? && sku in p.phase.observed && formula && !p.phase.observed[sku] && Upsert(flags, sku).Some? {
      var after := Upsert(flags, sku).value;
      var found := LastOpen(flags, |flags|, sku);
      forall i, j | 0 <= i < j < |after| && after[i].sku == after[j].sku
        ensures !(after[i].status == FlagOpen && after[j].status == FlagOpen)
      {
      }
      forall i | 0 <= i < |after| && after[i].status == FlagOpen
        ensures !HasOpenOrder(p.plant.desk.db, after[i].sku)
      {
      }
    }
  }

  // The creation step takes exactly the open flags that require a reorder and saw no open order.
  lemma QueueExactly(p: Pipe, c: Config, k: nat)
    requires p.phase.Deciding?
    ensures var next := PipeNext(p, c, StartCreation);
            && next.phase.Creating? && next.plant == p.plant
            && (k in next.phase.queue <==>
                  k < |p.plant.flags| && p.plant.flags[k].status == FlagOpen
                  && p.plant.flags[k].reorderRequired && !p.plant.flags[k].hasOpenPo)
  {
  }

  // ----- From a decision to an order -----

  // The flag asks for an order: open, with a reorder required and no open order seen.
  predicate AsksForOrder(f: Flag, sku: int) {
    f.sku == sku && f.status == FlagOpen && f.reorderRequired && !f.hasOpenPo
  }

  // Some queued flag asks for an order of the SKU.
  ghost predicate Queued(p: Pipe, sku: int) {
    p.phase.Creating? && exists k :: k in p.phase.queue && k < |p.plant.flags| && AsksForOrder(p.plant.flags[k], sku)
  }

  // A reorder decided from an observation of no open order is raised, whatever flags there were: the
  // SKU has a flag that asks for an order, and no flag of another SKU is touched.
  lemma DecidedReorderIsRaised(p: Pipe, c: Config, sku: int) returns (k: nat)
    requires PipeInv(p) && p.phase.Deciding? && sku in p.phase.observed && !p.phase.observed[sku]
    ensures var flags := PipeNext(p, c, Decide(sku, true)).plant.flags;
            && |p.plant.flags| <= |flags| <= |p.plant.flags| + 1
            && k < |flags| && AsksForOrder(flags[k], sku)
            && (forall i :: 0 <= i < |p.plant.flags| && i != k ==> flags[i] == p.plant.flags[i])
            && (k < |p.plant.flags| ==> p.plant.flags[k].sku == sku)
            && PipeNext(p, c, Decide(sku, true)).phase == p.phase
  {
    var flags := p.plant.flags;
    var found := LastOpen(flags, |flags|, sku);
    if found.Some? {
      var earlier := LastOpen(flags, found.value, sku);
      assert earlier.None?;
    }
    k := if found.Some? then found.value else |flags|;
  }

  // Nothing is raised without the formula, without an observation, or with an open order observed.
  lemma NothingElseIsRaised(p: Pipe, c: Config, sku: int, formula: bool)
    requires !(p.phase.Deciding? && sku in p.phase.observed && formula && !p.phase.observed[sku])
    ensures PipeNext(p, c, Decide(sku, formula)) == p
  {
  }

  // The creation step then queues that flag.
  lemma DecidedReorderIsQueued(p: Pipe, c: Config, sku: int)
    requires PipeInv(p) && p.phase.Deciding? && sku in p.phase.observed && !p.phase.observed[sku]
    ensures Queued(PipeNext(PipeNext(p, c, Decide(sku, true)), c, StartCreation), sku)
  {
    var k := DecidedReorderIsRaised(p, c, sku);
    var flags := PipeNext(p, c, Decide(sku, true)).plant.flags;
    assert Creatable(flags[k]);
    assert k in CreatableFlags(flags, |flags|);
  }

  // From the observation on: a SKU with no order in an open status, whose formula requires a reorder.
  lemma ObservedReorderIsQueued(p: Pipe, c: Config, sku: int)
    requires PipeInv(p) && p.phase.Deciding?
    requires forall i :: 0 <= i < |p.plant.desk.db.orders| && p.plant.desk.db.orders[i].sku == sku
                         ==> p.plant.desk.db.orders[i].status in {Confirmed, Rejected, Cancelled, Failed, TimedOut}
    ensures var observed := PipeNext(p, c, Observe(sku));
            Queued(PipeNext(PipeNext(observed, c, Decide(sku, true)), c, StartCreation), sku)
  {
    var observed := PipeNext(p, c, Observe(sku));
    assert !HasOpenOrder(p.plant.desk.db, sku);
    StepKeepsInv(p, c, Observe(sku));
    DecidedReorderIsQueued(observed, c, sku);
  }

  // And a queued flag that is processed to the end becomes the order asked for: one new row, with that
  // supplier and quantity, waiting for approval; nothing else changes but the flag's status.
  lemma QueuedReorderIsOrdered(p: Plant, c: Config, f: nat, supplier: int, quantity: int, now: int)
    requires Safe(p) && f < |p.flags| && p.flags[f].status == FlagOpen
    ensures var (after, verdict) := ProcessFlag(p, c, f, Completed(supplier, quantity), now);
            && verdict == VCreated && after.desk.db.outbox == p.desk.db.outbox
            && |after.desk.db.orders| == |p.desk.db.orders| + 1
            && (forall i :: 0 <= i < |p.desk.db.orders| ==> after.desk.db.orders[i] == p.desk.db.orders[i])
            && var po := after.desk.db.orders[|p.desk.db.orders|];
               && po.sku == p.flags[f].sku && po.supplier == supplier && po.quantity == quantity
               && po.status == PendingApproval && po.approvedBy == None && po.sentAt == None && po.messageId == None
               && after.flags == p.flags[f := p.flags[f].(status := FlagConsumed)]
  {
    DraftAppends(p.desk.db, p.flags[f].sku, supplier, quantity);
    AgentAppends(p.desk, c, p.flags[f].sku, supplier, quantity, true, now);
  }

  // ----- Processing a flag -----

  // A draft for a SKU with no open order finds no active one and appends a new one.
  lemma DraftAppends(db: Database, sku: int, supplier: int, quantity: int)
    requires !HasOpenOrder(db, sku)
    ensures LastActive(db.orders, |db.orders|, sku, supplier, quantity).None?
    ensures DraftResult(db, sku, supplier, quantity, true)
         == Ok((db.(orders := db.orders + [NewOrder(sku, supplier, quantity)]), |db.orders|))
    ensures DraftResult(db, sku, supplier, quantity, false) == Err(RowRefused)
  {
    forall i | 0 <= i < |db.orders|
      ensures !ActiveMatch(db.orders[i], sku, supplier, quantity)
    {
    }
  }

  // Where the agent leaves a draft for a key with no active order: one order, submitted and waiting for approval.
  lemma AgentAppends(d: Desk, c: Config, sku: int, supplier: int, quantity: int, rowAccepted: bool, now: int)
    requires LastActive(d.db.orders, |d.db.orders|, sku, supplier, quantity).None?
    ensures var r := AgentRun(d, c, sku, supplier, quantity, rowAccepted, now);
            if rowAccepted
            then r.1 == Returned(PendingApproval, 0)
                 && r.0.db == d.db.(orders := d.db.orders + [NewOrder(sku, supplier, quantity).(status := PendingApproval)])
            else r == (d, DraftFailed)
  {
    if rowAccepted {
      var (db, id) := DraftResult(d.db, sku, supplier, quantity, true).value;
      var d1 := Submitted(d.(db := db), id, now);
      assert d1.db.orders == d.db.orders + [NewOrder(sku, supplier, quantity).(status := PendingApproval)];
    }
  }

  lemma InterruptedAppends(d: Desk, c: Config, sku: int, supplier: int, quantity: int, stage: Stage, now: int) returns (po: PurchaseOrder)
    requires LastActive(d.db.orders, |d.db.orders|, sku, supplier, quantity).None?
    ensures OpenOrderAdded(d.db, Interrupted(d, c, sku, supplier, quantity, stage, now).db, po, sku)
  {
    po := NewOrder(sku, supplier, quantity);
    if stage in {OrderSubmitted, AgentReturned} {
      AgentAppends(d, c, sku, supplier, quantity, true, now);
      po := po.(status := PendingApproval);
      var (db, id) := DraftResult(d.db, sku, supplier, quantity, true).value;
      assert Submitted(d.(db := db), id, now).db.orders == d.db.orders + [po];
    }
  }

  predicate OpenOrderAdded(before: Database, after: Database, po: PurchaseOrder, sku: int) {
    po.sku == sku && IsOpen(po.status) && after.orders == before.orders + [po]
  }

  // The order tables after a flag: unchanged, or one open order for the flag's SKU appended.
  lemma ProcessFlagEffect(p: Plant, c: Config, f: nat, outcome: FlagOutcome, now: int)
    requires f < |p.flags| && !HasOpenOrder(p.desk.db, p.flags[f].sku)
    ensures var r := ProcessFlag(p, c, f, outcome, now);
            && (r.1.VCreated? <==> outcome.Completed?)
            && r.0.flags == (if outcome.Completed? then p.flags[f := p.flags[f].(status := FlagConsumed)] else p.flags)
            && (if outcome.Completed? || outcome.LateFailure?
                then exists po :: OpenOrderAdded(p.desk.db, r.0.desk.db, po, p.flags[f].sku)
                else r.0.desk.db.orders == p.desk.db.orders)
  {
    match outcome {
      case NoSupplier =>
      case Unusable =>
      case LateFailure(supplier, quantity, stage) =>
        DraftAppends(p.desk.db, p.flags[f].sku, supplier, quantity);
        var po := InterruptedAppends(p.desk, c, p.flags[f].sku, supplier, quantity, stage, now);
        assert OpenOrderAdded(p.desk.db, ProcessFlag(p, c, f, outcome, now).0.desk.db, po, p.flags[f].sku);
      case DraftRefused(supplier, quantity) =>
        DraftAppends(p.desk.db, p.flags[f].sku, supplier, quantity);
        AgentAppends(p.desk, c, p.flags[f].sku, supplier, quantity, false, now);
      case Completed(supplier, quantity) =>
        DraftAppends(p.desk.db, p.flags[f].sku, supplier, quantity);
        AgentAppends(p.desk, c, p.flags[f].sku, supplier, quantity, true, now);
        var po := NewOrder(p.flags[f].sku, supplier, quantity).(status := PendingApproval);
        assert OpenOrderAdded(p.desk.db, ProcessFlag(p, c, f, outcome, now).0.desk.db, po, p.flags[f].sku);
    }
  }

  // Appending an open order for `sku` opens that SKU and no other.
  lemma AppendedOpens(before: Database, after: Database, po: PurchaseOrder, sku: int)
    requires after.orders == before.orders + [po] && IsOpen(po.status)
    ensures HasOpenOrder(after, sku) <==> HasOpenOrder(before, sku) || sku == po.sku
  {
    if HasOpenOrder(before, sku) {
      var i :| 0 <= i < |before.orders| && before.orders[i].sku == sku && IsOpen(before.orders[i].status);
      assert after.orders[i] == before.orders[i];
    }
    assert after.orders[|before.orders|] == po;
  }

  // A flag keeps the promise exactly when its processing does not fail after the draft is committed.
  lemma FlagKeepsSafeIff(p: Plant, c: Config, f: nat, outcome: FlagOutcome, now: int)
    requires Safe(p) && f < |p.flags| && p.flags[f].status == FlagOpen
    ensures Safe(ProcessFlag(p, c, f, outcome, now).0) <==> !outcome.LateFailure?
  {
    var after := ProcessFlag(p, c, f, outcome, now).0;
    ProcessFlagEffect(p, c, f, outcome, now);
    if outcome.Completed? || outcome.LateFailure? {
      var po :| OpenOrderAdded(p.desk.db, after.desk.db, po, p.flags[f].sku);
      forall sku
        ensures HasOpenOrder(after.desk.db, sku) <==> HasOpenOrder(p.desk.db, sku) || sku == po.sku
      {
        AppendedOpens(p.desk.db, after.desk.db, po, sku);
      }
      if outcome.LateFailure? {
        assert after.flags[f].status == FlagOpen && HasOpenOrder(after.desk.db, after.flags[f].sku);
      } else {
        OrderAppendedStaysUnique(p.desk.db, after.desk.db, po);
      }
    } else {
      SameOrdersSameOpen(p.desk.db, after.desk.db);
    }
  }

  // The step processes a flag and fails after its draft is committed.
  predicate FailsLate(p: Pipe, s: PipeStep) {
    s.ProcessNext? && s.outcome.LateFailure? && p.phase.Creating? && p.phase.queue != []
  }

  lemma StepKeepsSafeExactly(p: Pipe, c: Config, s: PipeStep)
    requires PipeInv(p)
    ensures Safe(PipeNext(p, c, s).plant) <==> !FailsLate(p, s)
    ensures !FailsLate(p, s) ==> PipeInv(PipeNext(p, c, s))
  {
    if FailsLate(p, s) {
      FlagKeepsSafeIff(p.plant, c, p.phase.queue[0], s.outcome, s.now);
    } else if NoLateFailure(s) {
      StepKeepsInv(p, c, s);
    }
  }

  ghost predicate SafeAt(trace: seq<Pipe>, k: nat)
    requires k < |trace|
  {
    Safe(trace[k].plant)
  }

  predicate FailsLateAt(trace: seq<Pipe>, steps: seq<PipeStep>, k: nat)
    requires k < |steps| < |trace|
  {
    FailsLate(trace[k], steps[k])
  }

  lemma SafeNext(trace: seq<Pipe>, c: Config, steps: seq<PipeStep>, k: nat)
    requires IsPipeRun(trace, c, steps) && k < |steps| && PipeInv(trace[k])
    ensures SafeAt(trace, k + 1) <==> !FailsLateAt(trace, steps, k)
    ensures !FailsLateAt(trace, steps, k) ==> PipeInv(trace[k + 1])
  {
    StepKeepsSafeExactly(trace[k], c, steps[k]);
    assert trace[k + 1] == PipeNext(trace[k], c, steps[k]);
  }

  ghost predicate NeverFailsLate(trace: seq<Pipe>, steps: seq<PipeStep>, n: nat)
    requires n <= |steps| < |trace|
  {
    forall k :: 0 <= k < n ==> !FailsLateAt(trace, steps, k)
  }

  lemma {:induction false} InvUntilLate(trace: seq<Pipe>, c: Config, steps: seq<PipeStep>, n: nat)
    requires IsPipeRun(trace, c, steps) && n < |trace| && PipeInv(trace[0]) && NeverFailsLate(trace, steps, n)
    ensures PipeInv(trace[n])
  {
    if n > 0 {
      InvUntilLate(trace, c, steps, n - 1);
      SafeNext(trace, c, steps, n - 1);
    }
  }

  lemma {:induction false} FirstLate(trace: seq<Pipe>, steps: seq<PipeStep>, n: nat) returns (k: nat)
    requires n <= |steps| < |trace| && !NeverFailsLate(trace, steps, n)
    ensures k < n && FailsLateAt(trace, steps, k) && NeverFailsLate(trace, steps, k)
  {
    if NeverFailsLate(trace, steps, n - 1) {
      k := n - 1;
    } else {
      k := FirstLate(trace, steps, n - 1);
    }
  }

  // Over every interleaving: the whole promise holds at every moment exactly when no flag of the run
  // fails late.
  lemma PipelineIsSafeExactly(trace: seq<Pipe>, c: Config, steps: seq<PipeStep>, n: nat)
    requires IsPipeRun(trace, c, steps) && n < |trace| && PipeInv(trace[0])
    ensures (forall k :: 0 <= k <= n ==> SafeAt(trace, k)) <==> NeverFailsLate(trace, steps, n)
  {
    if NeverFailsLate(trace, steps, n) {
      forall k | 0 <= k <= n
        ensures SafeAt(trace, k)
      {
        InvUntilLate(trace, c, steps, k);
      }
    } else {
      var k := FirstLate(trace, steps, n);
      InvUntilLate(trace, c, steps, k);
      SafeNext(trace, c, steps, k);
      assert !SafeAt(trace, k + 1);
    }
  }

  // ----- One open order per SKU, whatever happened before -----

  predicate Drafts(outcome: FlagOutcome) {
    outcome.Completed? || outcome.LateFailure?
  }

  // What can be checked before a draft: the SKU has no open order, or the very order asked for is
  // still active and will be handed back.
  predicate DraftIsSafe(db: Database, sku: int, supplier: int, quantity: int) {
    !HasOpenOrder(db, sku) || LastActive(db.orders, |db.orders|, sku, supplier, quantity).Some?
  }

  // Same orders up to a change of status that neither opens nor closes one.
  ghost predicate SameOpenOrders(a: Database, b: Database) {
    && |a.orders| == |b.orders|
    && forall i :: 0 <= i < |a.orders| ==>
         a.orders[i].sku == b.orders[i].sku && (IsOpen(a.orders[i].status) <==> IsOpen(b.orders[i].status))
  }

  // A run that is handed an active order back opens no other.
  lemma HandedBackOpensNothing(d: Desk, c: Config, sku: int, supplier: int, quantity: int, rowAccepted: bool, stage: Stage, now: int)
    requires LastActive(d.db.orders, |d.db.orders|, sku, supplier, quantity).Some?
    ensures SameOpenOrders(d.db, AgentRun(d, c, sku, supplier, quantity, rowAccepted, now).0.db)
    ensures SameOpenOrders(d.db, Interrupted(d, c, sku, supplier, quantity, stage, now).db)
  {
    var (db, id) := DraftResult(d.db, sku, supplier, quantity, true).value;
    SubmittedIsPendingOrApproved(d, id, now);
  }

  lemma OneOpenOrderKept(a: Database, b: Database)
    requires SameOpenOrders(a, b)
    ensures OneOpenOrderPerSku(a) <==> OneOpenOrderPerSku(b)
  {
  }

  lemma OrderAppendedIff(before: Database, after: Database, po: PurchaseOrder)
    requires OneOpenOrderPerSku(before) && IsOpen(po.status) && after.orders == before.orders + [po]
    ensures OneOpenOrderPerSku(after) <==> !HasOpenOrder(before, po.sku)
  {
    if HasOpenOrder(before, po.sku) {
      var i :| 0 <= i < |before.orders| && before.orders[i].sku == po.sku && IsOpen(before.orders[i].status);
      assert after.orders[i] == before.orders[i] && after.orders[|before.orders|] == po;
    } else {
      OrderAppendedStaysUnique(before, after, po);
    }
  }

  // From any state with one open order per SKU, reached in whatever way: processing a flag keeps it
  // so exactly when no draft is made or the draft is safe.
  lemma FlagKeepsOneOrderExactly(p: Plant, c: Config, f: nat, outcome: FlagOutcome, now: int)
    requires OneOpenOrderPerSku(p.desk.db) && f < |p.flags|
    ensures OneOpenOrderPerSku(ProcessFlag(p, c, f, outcome, now).0.desk.db)
       <==> (Drafts(outcome) ==> DraftIsSafe(p.desk.db, p.flags[f].sku, outcome.supplier, outcome.quantity))
  {
    var db, after := p.desk.db, ProcessFlag(p, c, f, outcome, now).0.desk.db;
    if !outcome.NoSupplier? && !outcome.Unusable? {
      var sku, supplier, quantity := p.flags[f].sku, outcome.supplier, outcome.quantity;
      var stage := if outcome.LateFailure? then outcome.stage else Drafted;
      if LastActive(db.orders, |db.orders|, sku, supplier, quantity).Some? {
        HandedBackOpensNothing(p.desk, c, sku, supplier, quantity, outcome.Completed?, stage, now);
        OneOpenOrderKept(db, after);
      } else if Drafts(outcome) {
        var po := NewOrder(sku, supplier, quantity).(status := PendingApproval);
        if outcome.LateFailure? {
          po := InterruptedAppends(p.desk, c, sku, supplier, quantity, stage, now);
        } else {
          AgentAppends(p.desk, c, sku, supplier, quantity, true, now);
        }
        OrderAppendedIff(db, after, po);
      } else {
        AgentAppends(p.desk, c, sku, supplier, quantity, false, now);
      }
    }
  }

  // The guard of one step of the protocol.
  predicate StepIsSafe(p: Pipe, s: PipeStep) {
    s.ProcessNext? && p.phase.Creating? && p.phase.queue != [] && p.phase.queue[0] < |p.plant.flags| && Drafts(s.outcome)
    ==> DraftIsSafe(p.plant.desk.db, p.plant.flags[p.phase.queue[0]].sku, s.outcome.supplier, s.outcome.quantity)
  }

  lemma StepKeepsOneOrderExactly(p: Pipe, c: Config, s: PipeStep)
    requires OneOpenOrderPerSku(p.plant.desk.db)
    ensures OneOpenOrderPerSku(PipeNext(p, c, s).plant.desk.db) <==> StepIsSafe(p, s)
  {
    match s {
      case Other(op) => OtherKeepsOneOrder(p.plant.desk.db, op);
      case ProcessNext(outcome, now) =>
        if p.phase.Creating? && p.phase.queue != [] && p.phase.queue[0] < |p.plant.flags| {
          FlagKeepsOneOrderExactly(p.plant, c, p.phase.queue[0], outcome, now);
        }
      case _ =>
    }
  }

  // Over every interleaving, late failures included: no SKU ever has two open orders exactly when
  // every draft of the run was safe at its moment.
  lemma {:induction false} OrdersOnceExactly(trace: seq<Pipe>, c: Config, steps: seq<PipeStep>, n: nat)
    requires IsPipeRun(trace, c, steps) && n < |trace|
    requires OneOpenOrderPerSku(trace[0].plant.desk.db)
    ensures (forall k :: 0 <= k <= n ==> OneOpenOrderPerSku(trace[k].plant.desk.db))
       <==> (forall k :: 0 <= k < n ==> StepIsSafe(trace[k], steps[k]))
  {
    if n > 0 {
      OrdersOnceExactly(trace, c, steps, n - 1);
      assert trace[(n - 1) + 1] == PipeNext(trace[n - 1], c, steps[n - 1]);
      if OneOpenOrderPerSku(trace[n - 1].plant.desk.db) {
        StepKeepsOneOrderExactly(trace[n - 1], c, steps[n - 1]);
      }
    }
  }

  lemma OrderAppendedStaysUnique(before: Database, after: Database, po: PurchaseOrder)
    requires OneOpenOrderPerSku(before) && !HasOpenOrder(before, po.sku)
    requires after.orders == before.orders + [po]
    ensures OneOpenOrderPerSku(after)
  {
    forall i, j | 0 <= i < j < |after.orders| && after.orders[i].sku == after.orders[j].sku
      ensures !(IsOpen(after.orders[i].status) && IsOpen(after.orders[j].status))
    {
      assert after.orders[i] == before.orders[i];
    }
  }

  lemma SameOrdersSameOpen(a: Database, b: Database)
    requires a.orders == b.orders
    ensures forall sku :: HasOpenOrder(a, sku) <==> HasOpenOrder(b, sku)
  {
  }

  lemma ProcessKeepsInv(p: Pipe, c: Config, outcome: FlagOutcome, now: int)
    requires PipeInv(p) && !outcome.LateFailure?
    ensures PipeInv(PipeNext(p, c, ProcessNext(outcome, now)))
  {
    if p.phase.Creating? && p.phase.queue != [] {
      var f := p.phase.queue[0];
      FlagKeepsSafeIff(p.plant, c, f, outcome, now);
      ProcessFlagEffect(p.plant, c, f, outcome, now);
    }
  }

  predicate NoLateFailure(s: PipeStep) {
    s.ProcessNext? ==> !s.outcome.LateFailure?
  }

  lemma StepKeepsInv(p: Pipe, c: Config, s: PipeStep)
    requires PipeInv(p) && NoLateFailure(s)
    ensures PipeInv(PipeNext(p, c, s))
  {
    match s {
      case Other(op) => OtherKeepsInv(p, c, op);
      case Decide(sku, formula) => DecideKeepsInv(p, c, sku, formula);
      case ProcessNext(outcome, now) => ProcessKeepsInv(p, c, outcome, now);
      case _ =>
    }
  }

  ghost predicate IsPipeRun(trace: seq<Pipe>, c: Config, steps: seq<PipeStep>) {
    && |trace| == |steps| + 1
    && forall i :: 0 <= i < |steps| ==> trace[i + 1] == PipeNext(trace[i], c, steps[i])
  }

  // Over every interleaving of pipeline steps and other calls, no SKU ever has two open flags, two
  // open orders, or an open flag together with an open order, as long as no flag fails late.
  lemma {:induction false} PipelineIsSafe(trace: seq<Pipe>, c: Config, steps: seq<PipeStep>, n: nat)
    requires IsPipeRun(trace, c, steps) && n < |trace|
    requires PipeInv(trace[0])
    requires forall i :: 0 <= i < |steps| ==> NoLateFailure(steps[i])
    ensures Safe(trace[n].plant) && PipeInv(trace[n])
  {
    if n > 0 {
      PipelineIsSafe(trace, c, steps, n - 1);
      StepKeepsInv(trace[n - 1], c, steps[n - 1]);
      assert trace[(n - 1) + 1] == PipeNext(trace[n - 1], c, steps[n - 1]);
    }
  }

  const BARE_PLANT := Plant(Desk(Database([], []), map[], []), [Flag(7, true, false, FlagOpen)])

  // A late failure leaves an open flag next to an open order ...
  lemma LateFailureLeavesBoth(c: Config, now: int)
    ensures var p := ProcessFlag(BARE_PLANT, c, 0, LateFailure(1, 5, Drafted), now).0;
            Safe(BARE_PLANT) && !Safe(p) && p == BARE_PLANT.(desk := Desk(Database([NewOrder(7, 1, 5)], []), map[], []))
  {
    FlagKeepsSafeIff(BARE_PLANT, c, 0, LateFailure(1, 5, Drafted), now);
    DraftAppends(BARE_PLANT.desk.db, 7, 1, 5);
  }

  // ... and the next run drafts a second order for the SKU: the restriction is needed.
  lemma LateFailureDoubleOrders(c: Config, now: int)
    ensures var p1 := ProcessFlag(BARE_PLANT, c, 0, LateFailure(1, 5, Drafted), now).0;
            ProcessFlag(p1, c, 0, Completed(1, 6), now).0.desk.db.orders
            == [NewOrder(7, 1, 5), NewOrder(7, 1, 6).(status := PendingApproval)]
  {
    LateFailureLeavesBoth(c, now);
    var d1 := Desk(Database([NewOrder(7, 1, 5)], []), map[], []);
    assert LastActive(d1.db.orders, 1, 7, 1, 6).None?;
    AgentAppends(d1, c, 7, 1, 6, true, now);
  }

  // ----- The flag processor -----

  datatype Tally = Tally(created: nat, skipped: nat, failed: nat)

  function Counted(t: Tally, v: Verdict): Tally {
    match v
    case VCreated => t.(created := t.created + 1)
    case VSkipped => t.(skipped := t.skipped + 1)
    case VFailed => t.(failed := t.failed + 1)
  }

  // `process_flags` after the first n flags.
  function ProcessAll(p: Plant, c: Config, queue: seq<nat>, outcomes: seq<FlagOutcome>, n: nat, now: int): (r: (Plant, Tally))
    requires n <= |queue| == |outcomes|
    requires forall k :: 0 <= k < |queue| ==> queue[k] < |p.flags|
    ensures |r.0.flags| == |p.flags|
  {
    if n == 0 then (p, Tally(0, 0, 0))
    else
      var (q, t) := ProcessAll(p, c, queue, outcomes, n - 1, now);
      var (q', v) := ProcessFlag(q, c, queue[n - 1], outcomes[n - 1], now);
      (q', Counted(t, v))
  }

  class POFromFlagCreator {
    const agent: PurchasingAgent
    var flags: seq<Flag>

    constructor (agent: PurchasingAgent)
      ensures this.agent == agent && flags == []
    {
      this.agent := agent;
      flags := [];
    }

    function State(): Plant
      reads this, agent, agent.purchasing, agent.workflow
    {
      Plant(agent.State(), flags)
    }

    method UpsertOpenReorderFlag(sku: int) returns (raised: bool)
      modifies this
      ensures raised == Upsert(old(flags), sku).None?
      ensures flags == if raised then old(flags) else Upsert(old(flags), sku).value
    {
      var i := |flags|;
      var found: Option<nat> := None;
      while i > 0
        invariant 0 <= i <= |flags| && flags == old(flags)
        invariant found.None? ==> LastOpen(flags, |flags|, sku) == LastOpen(flags, i, sku)
        invariant found.Some? ==> LastOpen(flags, |flags|, sku) == found && i <= found.value
                                  && LastOpen(flags, found.value, sku) == LastOpen(flags, i, sku)
      {
        i := i - 1;
        if OpenFor(flags[i], sku) {
          if found.Some? {
            return true;
          }
          found := Some(i);
        }
      }
      if found.Some? {
        flags := flags[found.value := Flag(sku, true, false, FlagOpen)];
      } else {
        flags := flags + [Flag(sku, true, false, FlagOpen)];
      }
      raised := false;
    }

    method ProcessSingleFlag(f: nat, outcome: FlagOutcome, now: int) returns (v: Verdict)
      requires f < |flags|
      modifies this, agent, agent.purchasing, agent.workflow
      ensures (State(), v) == ProcessFlag(old(State()), agent.config, f, outcome, now)
    {
      if outcome.NoSupplier? {
        return VSkipped;
      }
      if outcome.Unusable? {
        return VFailed;
      }
      if outcome.LateFailure? {
        RunInterrupted(flags[f].sku, outcome.supplier, outcome.quantity, outcome.stage, now);
        return VFailed;
      }
      var context := AgentContext(flags[f].sku, outcome.supplier, outcome.quantity, outcome.Completed?);
      var result := agent.ExecuteWorkflow(context, OwnEmailTool(false, ""), OwnListener, now);
      if !result.Returned? || result.status == Failed {
        return VFailed;
      }
      flags := flags[f := flags[f].(status := FlagConsumed)];
      v := VCreated;
    }

    // An agent run up to the stage at which an exception ends it.
    method RunInterrupted(sku: int, supplier: int, quantity: int, stage: Stage, now: int)
      modifies agent, agent.purchasing, agent.workflow
      ensures agent.State() == Interrupted(old(agent.State()), agent.config, sku, supplier, quantity, stage, now)
    {
      if stage == AgentReturned {
        var _ := agent.ExecuteWorkflow(AgentContext(sku, supplier, quantity, true), OwnEmailTool(false, ""), OwnListener, now);
        return;
      }
      var drafted := agent.purchasing.DraftPo(sku, supplier, quantity, true);
      if stage == WorkflowCreated {
        agent.workflow.CreateWorkflow(drafted.value);
      } else if stage == OrderSubmitted {
        agent.Submit(drafted.value, now);
      }
    }

    method ProcessFlags(queue: seq<nat>, outcomes: seq<FlagOutcome>, now: int) returns (results: Tally)
      requires |queue| == |outcomes|
      requires forall k :: 0 <= k < |queue| ==> queue[k] < |flags|
      modifies this, agent, agent.purchasing, agent.workflow
      ensures (State(), results) == ProcessAll(old(State()), agent.config, queue, outcomes, |queue|, now)
    {
      results := Tally(0, 0, 0);
      for i := 0 to |queue|
        invariant |flags| == old(|flags|)
        invariant (State(), results) == ProcessAll(old(State()), agent.config, queue, outcomes, i, now)
      {
        var verdict := ProcessSingleFlag(queue[i], outcomes[i], now);
        results := Counted(results, verdict);
      }
    }
  }

  // A batch of distinct open flags, none of which fails late.
  ghost predicate GoodBatch(p: Plant, queue: seq<nat>, outcomes: seq<FlagOutcome>) {
    && |queue| == |outcomes| && Distinct(queue)
    && (forall k :: 0 <= k < |queue| ==> queue[k] < |p.flags| && p.flags[queue[k]].status == FlagOpen)
    && (forall k :: 0 <= k < |queue| ==> !outcomes[k].LateFailure?)
  }

  function FlagAfter(f: Flag, outcome: FlagOutcome): Flag {
    if outcome.Completed? then f.(status := FlagConsumed) else f
  }

  ghost predicate FlagsProcessed(before: seq<Flag>, after: seq<Flag>, queue: seq<nat>, outcomes: seq<FlagOutcome>, n: nat)
    requires n <= |queue| == |outcomes| && |after| == |before|
    requires forall k :: 0 <= k < |queue| ==> queue[k] < |before|
  {
    && (forall k :: 0 <= k < n ==> after[queue[k]] == FlagAfter(before[queue[k]], outcomes[k]))
    && (forall f :: 0 <= f < |before| && f !in queue[..n] ==> after[f] == before[f])
  }

  function CountCompleted(outcomes: seq<FlagOutcome>, n: nat): nat
    requires n <= |outcomes|
  {
    if n == 0 then 0 else CountCompleted(outcomes, n - 1) + if outcomes[n - 1].Completed? then 1 else 0
  }

  function CountSkipped(outcomes: seq<FlagOutcome>, n: nat): nat
    requires n <= |outcomes|
  {
    if n == 0 then 0 else CountSkipped(outcomes, n - 1) + if outcomes[n - 1].NoSupplier? then 1 else 0
  }

  // After n flags: every flag is tallied once and for what happened to it, each created order is one
  // new row, exactly the flags whose processing completed are consumed, and the promise still holds.
  ghost predicate Accounted(p: Plant, queue: seq<nat>, outcomes: seq<FlagOutcome>, n: nat, r: (Plant, Tally)) {
    && GoodBatch(p, queue, outcomes) && n <= |queue| && |r.0.flags| == |p.flags|
    && Safe(r.0)
    && r.1.created + r.1.skipped + r.1.failed == n
    && r.1.created == CountCompleted(outcomes, n) && r.1.skipped == CountSkipped(outcomes, n)
    && |r.0.desk.db.orders| == |p.desk.db.orders| + r.1.created
    && FlagsProcessed(p.flags, r.0.flags, queue, outcomes, n)
  }

  function OneFlagMore(c: Config, r: (Plant, Tally), f: nat, outcome: FlagOutcome, now: int): (Plant, Tally)
    requires f < |r.0.flags|
  {
    var (q, v) := ProcessFlag(r.0, c, f, outcome, now);
    (q, Counted(r.1, v))
  }

  lemma ProcessAllNext(p: Plant, c: Config, queue: seq<nat>, outcomes: seq<FlagOutcome>, n: nat, now: int)
    requires 0 < n <= |queue| == |outcomes|
    requires forall k :: 0 <= k < |queue| ==> queue[k] < |p.flags|
    ensures ProcessAll(p, c, queue, outcomes, n, now)
         == OneFlagMore(c, ProcessAll(p, c, queue, outcomes, n - 1, now), queue[n - 1], outcomes[n - 1], now)
  {
  }

  // The first n flags of a good batch are accounted for.
  ghost predicate BatchDone(p: Plant, c: Config, queue: seq<nat>, outcomes: seq<FlagOutcome>, n: nat, now: int) {
    && GoodBatch(p, queue, outcomes) && n <= |queue|
    && Accounted(p, queue, outcomes, n, ProcessAll(p, c, queue, outcomes, n, now))
  }

  lemma BatchStarts(p: Plant, c: Config, queue: seq<nat>, outcomes: seq<FlagOutcome>, now: int)
    requires GoodBatch(p, queue, outcomes) && Safe(p)
    ensures BatchDone(p, c, queue, outcomes, 0, now)
  {
  }

  lemma BatchGoesOn(p: Plant, c: Config, queue: seq<nat>, outcomes: seq<FlagOutcome>, n: nat, now: int)
    requires 0 < n <= |queue| && BatchDone(p, c, queue, outcomes, n - 1, now)
    ensures BatchDone(p, c, queue, outcomes, n, now)
  {
    ProcessAllNext(p, c, queue, outcomes, n, now);
    BatchNext(p, c, queue, outcomes, n, now, ProcessAll(p, c, queue, outcomes, n - 1, now));
  }

  lemma {:induction false} BatchAccounting(p: Plant, c: Config, queue: seq<nat>, outcomes: seq<FlagOutcome>, n: nat, now: int)
    requires GoodBatch(p, queue, outcomes) && n <= |queue| && Safe(p)
    ensures BatchDone(p, c, queue, outcomes, n, now)
  {
    if n == 0 {
      BatchStarts(p, c, queue, outcomes, now);
    } else {
      BatchAccounting(p, c, queue, outcomes, n - 1, now);
      BatchGoesOn(p, c, queue, outcomes, n, now);
    }
  }

  lemma BatchNext(p: Plant, c: Config, queue: seq<nat>, outcomes: seq<FlagOutcome>, n: nat, now: int, r: (Plant, Tally))
    requires 0 < n <= |queue| && Accounted(p, queue, outcomes, n - 1, r) && queue[n - 1] < |r.0.flags|
    ensures Accounted(p, queue, outcomes, n, OneFlagMore(c, r, queue[n - 1], outcomes[n - 1], now))
  {
    var f, outcome := queue[n - 1], outcomes[n - 1];
    assert f !in queue[..n - 1];
    assert r.0.flags[f] == p.flags[f];
    BatchStep(r.0, c, f, outcome, now);
    var (q, v) := ProcessFlag(r.0, c, f, outcome, now);
    FlagsExtended(p.flags, r.0.flags, q.flags, queue, outcomes, n);
  }

  // How each outcome is tallied, and what becomes of the flag, from any state at all.
  lemma FlagVerdict(p: Plant, c: Config, f: nat, outcome: FlagOutcome, now: int)
    requires f < |p.flags|
    ensures var (after, verdict) := ProcessFlag(p, c, f, outcome, now);
            && (verdict.VSkipped? <==> outcome.NoSupplier?)
            && (outcome.Unusable? || outcome.LateFailure? ==> verdict.VFailed?)
            && (outcome.Completed? ==> verdict.VCreated?)
            && after.flags == (if verdict.VCreated? then p.flags[f := p.flags[f].(status := FlagConsumed)] else p.flags)
  {
  }

  lemma BatchStep(p: Plant, c: Config, f: nat, outcome: FlagOutcome, now: int)
    requires Safe(p) && f < |p.flags| && p.flags[f].status == FlagOpen && !outcome.LateFailure?
    ensures var (q, v) := ProcessFlag(p, c, f, outcome, now);
            && Safe(q)
            && (v.VCreated? <==> outcome.Completed?) && (v.VSkipped? <==> outcome.NoSupplier?)
            && q.flags == p.flags[f := FlagAfter(p.flags[f], outcome)]
            && |q.desk.db.orders| == |p.desk.db.orders| + if v.VCreated? then 1 else 0
  {
    FlagKeepsSafeIff(p, c, f, outcome, now);
    ProcessFlagEffect(p, c, f, outcome, now);
    assert p.flags[f := p.flags[f]] == p.flags;
  }

  lemma FlagsExtended(before: seq<Flag>, mid: seq<Flag>, after: seq<Flag>, queue: seq<nat>, outcomes: seq<FlagOutcome>, n: nat)
    requires 0 < n <= |queue| == |outcomes| && |mid| == |before| && Distinct(queue)
    requires forall k :: 0 <= k < |queue| ==> queue[k] < |before|
    requires FlagsProcessed(before, mid, queue, outcomes, n - 1)
    requires mid[queue[n - 1]] == before[queue[n - 1]]
    requires after == mid[queue[n - 1] := FlagAfter(mid[queue[n - 1]], outcomes[n - 1])]
    ensures FlagsProcessed(before, after, queue, outcomes, n)
  {
    assert queue[..n] == queue[..n - 1] + [queue[n - 1]];
    forall k | 0 <= k < n
      ensures after[queue[k]] == FlagAfter(before[queue[k]], outcomes[k])
    {
    }
  }

  // One of the first n flags asks for the SKU and was processed to the end.
  predicate CompletedFor(p: Plant, queue: seq<nat>, outcomes: seq<FlagOutcome>, n: nat, sku: int)
    requires n <= |queue| == |outcomes| && forall k :: 0 <= k < |queue| ==> queue[k] < |p.flags|
  {
    exists k :: 0 <= k < n && outcomes[k].Completed? && p.flags[queue[k]].sku == sku
  }

  lemma FlagOpensItsSku(p: Plant, c: Config, f: nat, outcome: FlagOutcome, now: int, sku: int)
    requires Safe(p) && f < |p.flags| && p.flags[f].status == FlagOpen && !outcome.LateFailure?
    ensures HasOpenOrder(ProcessFlag(p, c, f, outcome, now).0.desk.db, sku) <==>
              HasOpenOrder(p.desk.db, sku) || (outcome.Completed? && p.flags[f].sku == sku)
  {
    var after := ProcessFlag(p, c, f, outcome, now).0;
    ProcessFlagEffect(p, c, f, outcome, now);
    if outcome.Completed? {
      var po :| OpenOrderAdded(p.desk.db, after.desk.db, po, p.flags[f].sku);
      AppendedOpens(p.desk.db, after.desk.db, po, sku);
    } else {
      SameOrdersSameOpen(p.desk.db, after.desk.db);
    }
  }

  ghost predicate OpensExactly(p: Plant, queue: seq<nat>, outcomes: seq<FlagOutcome>, n: nat, sku: int, after: Database)
    requires n <= |queue| == |outcomes| && forall k :: 0 <= k < |queue| ==> queue[k] < |p.flags|
  {
    HasOpenOrder(after, sku) <==> HasOpenOrder(p.desk.db, sku) || CompletedFor(p, queue, outcomes, n, sku)
  }

  lemma OpensNext(p: Plant, c: Config, queue: seq<nat>, outcomes: seq<FlagOutcome>, n: nat, now: int, sku: int, r: (Plant, Tally))
    requires 0 < n <= |queue| && Accounted(p, queue, outcomes, n - 1, r) && queue[n - 1] < |r.0.flags|
    requires OpensExactly(p, queue, outcomes, n - 1, sku, r.0.desk.db)
    ensures OpensExactly(p, queue, outcomes, n, sku, OneFlagMore(c, r, queue[n - 1], outcomes[n - 1], now).0.desk.db)
  {
    NotYetProcessed(p, queue, outcomes, n, r);
    FlagOpensItsSku(r.0, c, queue[n - 1], outcomes[n - 1], now, sku);
    CompletedForNext(p, queue, outcomes, n, sku);
  }

  ghost predicate BatchOpens(p: Plant, c: Config, queue: seq<nat>, outcomes: seq<FlagOutcome>, n: nat, now: int, sku: int) {
    && GoodBatch(p, queue, outcomes) && n <= |queue|
    && OpensExactly(p, queue, outcomes, n, sku, ProcessAll(p, c, queue, outcomes, n, now).0.desk.db)
  }

  lemma NothingOpenedYet(p: Plant, c: Config, queue: seq<nat>, outcomes: seq<FlagOutcome>, now: int, sku: int)
    requires GoodBatch(p, queue, outcomes)
    ensures BatchOpens(p, c, queue, outcomes, 0, now, sku)
  {
    assert !CompletedFor(p, queue, outcomes, 0, sku);
  }

  lemma BatchOpensMore(p: Plant, c: Config, queue: seq<nat>, outcomes: seq<FlagOutcome>, n: nat, now: int, sku: int)
    requires 0 < n <= |queue| && Safe(p) && BatchOpens(p, c, queue, outcomes, n - 1, now, sku)
    ensures BatchOpens(p, c, queue, outcomes, n, now, sku)
  {
    BatchAccounting(p, c, queue, outcomes, n - 1, now);
    ProcessAllNext(p, c, queue, outcomes, n, now);
    OpensNext(p, c, queue, outcomes, n, now, sku, ProcessAll(p, c, queue, outcomes, n - 1, now));
  }

  // After a batch a SKU has an open order exactly when it had one before, or one of its flags was
  // processed to the end.
  lemma {:induction false} BatchOpensExactly(p: Plant, c: Config, queue: seq<nat>, outcomes: seq<FlagOutcome>, n: nat, now: int, sku: int)
    requires GoodBatch(p, queue, outcomes) && n <= |queue| && Safe(p)
    ensures BatchOpens(p, c, queue, outcomes, n, now, sku)
  {
    if n == 0 {
      NothingOpenedYet(p, c, queue, outcomes, now, sku);
    } else {
      BatchOpensExactly(p, c, queue, outcomes, n - 1, now, sku);
      BatchOpensMore(p, c, queue, outcomes, n, now, sku);
    }
  }

  lemma NotYetProcessed(p: Plant, queue: seq<nat>, outcomes: seq<FlagOutcome>, n: nat, r: (Plant, Tally))
    requires 0 < n <= |queue| && Accounted(p, queue, outcomes, n - 1, r)
    ensures queue[n - 1] < |p.flags| && r.0.flags[queue[n - 1]] == p.flags[queue[n - 1]]
  {
    assert queue[n - 1] !in queue[..n - 1];
  }

  lemma CompletedForNext(p: Plant, queue: seq<nat>, outcomes: seq<FlagOutcome>, n: nat, sku: int)
    requires 0 < n <= |queue| == |outcomes| && forall k :: 0 <= k < |queue| ==> queue[k] < |p.flags|
    ensures CompletedFor(p, queue, outcomes, n, sku) <==>
              CompletedFor(p, queue, outcomes, n - 1, sku) || (outcomes[n - 1].Completed? && p.flags[queue[n - 1]].sku == sku)
  {
  }

  // From the decision to the order: the SKU's flag is in the queue of the creation step, and the step
  // leaves an open order for the SKU exactly when that flag is processed to the end.
  lemma DecidedReorderIsOrderedIff(p: Pipe, c: Config, sku: int, outcomes: seq<FlagOutcome>, now: int)
    requires PipeInv(p) && p.phase.Deciding? && sku in p.phase.observed && !p.phase.observed[sku]
    requires var q := PipeNext(PipeNext(p, c, Decide(sku, true)), c, StartCreation);
             q.phase.Creating? ==> |outcomes| == |q.phase.queue| && forall k :: 0 <= k < |outcomes| ==> !outcomes[k].LateFailure?
    ensures var q := PipeNext(PipeNext(p, c, Decide(sku, true)), c, StartCreation);
            && q.phase.Creating? && Queued(q, sku) && GoodBatch(q.plant, q.phase.queue, outcomes)
            && (HasOpenOrder(ProcessAll(q.plant, c, q.phase.queue, outcomes, |outcomes|, now).0.desk.db, sku)
                <==> CompletedFor(q.plant, q.phase.queue, outcomes, |outcomes|, sku))
  {
    var decided := PipeNext(p, c, Decide(sku, true));
    var q := PipeNext(decided, c, StartCreation);
    DecidedReorderIsQueued(p, c, sku);
    StepKeepsInv(p, c, Decide(sku, true));
    StepKeepsInv(decided, c, StartCreation);
    BatchOpensExactly(q.plant, c, q.phase.queue, outcomes, |outcomes|, now, sku);
  }
}
