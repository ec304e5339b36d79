// The purchasing agent's workflow: draft, approval gate, email, confirmation polling
// (ai/agents/purchasing_agent.py, apps/purchasing/workflow_services.py and the agent's tools).
// The approval callback, the email tool and the confirmation tool may be injected, so they
// answer arbitrarily; the repository's own tools are the other alternative.
module PurchasingAgents {
  import opened Sequences
  import opened Wrappers
  import opened Purchasing

  datatype Workflow = Workflow(status: Status, messageId: Option<string>, attempts: nat, error: string, lastPollAt: Option<int>)

  // How the approval gate of one run is decided: `auto_approve` outside production, a callback's
  // answer, or neither.
  datatype Gate = AutoApprove | Callback(approved: bool) | NoGate

  function GateOf(autoApprove: bool, isProduction: bool, callback: Option<bool>): Gate {
    if autoApprove && !isProduction then AutoApprove
    else if callback.Some? then Callback(callback.value)
    else NoGate
  }

  // `isProduction` is the deployment's setting, `callback` what the approval callback answers.
  datatype Context = Context(
    sku: int,
    supplier: int,
    quantity: int,
    rowAccepted: bool,
    user: Option<int>,
    autoApprove: bool,
    isProduction: bool,
    callback: Option<bool>)
  {
    function Gate(): Gate {
      GateOf(autoApprove, isProduction, callback)
    }
  }

  datatype EmailAnswer = EmailFailed(error: string) | EmailQueued(messageId: Option<string>)

  datatype EmailTool = OwnEmailTool(queueUp: bool, mailId: string) | InjectedEmailTool(answer: EmailAnswer)

  datatype PollAnswer = PollConfirmed | PollTerminal(text: string) | PollWaiting

  datatype PollTool = OwnListener | InjectedListener(answers: nat -> PollAnswer)

  datatype Config = Config(initialDelay: real, maxDelay: real, maxAttempts: nat)

  // `Returned` is a result dictionary past the draft step, `Raised` an exception.
  datatype Outcome = Returned(status: Status, attempts: nat) | DraftFailed | Raised(error: PoError)

  // Everything a run writes: the order tables, the workflow of each order, the sleeps taken.
  datatype Desk = Desk(db: Database, workflows: map<nat, Workflow>, sleeps: seq<real>)

  // ----- Specification -----

  function Created(ws: map<nat, Workflow>, id: nat): map<nat, Workflow> {
    if id in ws then ws else ws[id := Workflow(Draft, None, 0, "", None)]
  }

  function WithStatus(d: Desk, id: nat, s: Status): Desk
    requires id in d.workflows && s != WaitingConfirmation
  {
    d.(workflows := d.workflows[id := d.workflows[id].(status := s)])
  }

  // Reaching waiting_confirmation also stamps the workflow's poll time.
  function Waiting(d: Desk, id: nat, now: int): Desk
    requires id in d.workflows
  {
    d.(workflows := d.workflows[id := d.workflows[id].(status := WaitingConfirmation, lastPollAt := Some(now))])
  }

  function WithFailure(d: Desk, id: nat, error: string): Desk
    requires id in d.workflows
  {
    d.(workflows := d.workflows[id := d.workflows[id].(status := Failed, error := error)])
  }

  predicate Known(d: Desk, id: nat) {
    id < |d.db.orders| && id in d.workflows
  }

  // The approving branches of the gate.
  function ApprovedBy(d: Desk, id: nat, user: Option<int>): (r: (Desk, Option<Outcome>))
    requires Known(d, id)
    ensures Known(r.0, id)
  {
    if user.None? then (WithStatus(d, id, Approved), None)
    else
      var r := Apply(d.db, ApprovePo(id, user.value, true, false));
      if r.Err? then (d, Some(Raised(r.error)))
      else (WithStatus(d.(db := r.value), id, Approved), None)
  }

  // `_handle_approval_gate`: None when the run goes on.
  function ApprovalGate(d: Desk, id: nat, user: Option<int>, gate: Gate): (r: (Desk, Option<Outcome>))
    requires Known(d, id)
    ensures Known(r.0, id)
  {
    var d1 := WithStatus(d, id, PendingApproval);
    match gate
    case NoGate => (d1, Some(Returned(PendingApproval, 0)))
    case Callback(false) =>
      var r := Apply(d1.db, RejectPo(id));
      if r.Err? then (d1, Some(Raised(r.error)))
      else (WithStatus(d1.(db := r.value), id, Rejected), Some(Returned(Rejected, 0)))
    case _ => ApprovedBy(d1, id, user)
  }

  // What the email tool answers, and the tables after it ran.
  function EmailAnswered(db: Database, id: nat, tool: EmailTool): (Database, EmailAnswer) {
    match tool
    case InjectedEmailTool(answer) => (db, answer)
    case OwnEmailTool(queueUp, mailId) =>
      var r := Apply(db, RunEmailTool(id, queueUp, mailId));
      if r.Ok? then (r.value, EmailQueued(Some(mailId))) else (db, EmailFailed("not dispatched"))
  }

  // `_send_email`: None when the run goes on.
  function SendEmail(d: Desk, id: nat, tool: EmailTool, now: int): (r: (Desk, Option<Outcome>))
    requires Known(d, id)
    ensures Known(r.0, id)
  {
    var (db, answer) := EmailAnswered(d.db, id, tool);
    match answer
    case EmailFailed(error) =>
      (WithFailure(d.(db := Step(db, MarkFailed(id, error))), id, error), Some(Returned(Failed, 0)))
    case EmailQueued(messageId) =>
      var sent := Apply(db, MarkEmailSent(id, messageId, now));
      if sent.Err? then (d.(db := db), Some(Raised(sent.error)))
      else
        var d1 := WithMessage(d.(db := sent.value), id, messageId);
        var waiting := Apply(d1.db, MarkWaiting(id));
        if waiting.Err? then (d1, Some(Raised(waiting.error)))
        else (Waiting(d1.(db := waiting.value), id, now), None)
  }

  function WithMessage(d: Desk, id: nat, messageId: Option<string>): Desk
    requires id in d.workflows
  {
    var w := d.workflows[id].(status := EmailSent);
    d.(workflows := d.workflows[id := if messageId.Some? then w.(messageId := messageId) else w])
  }

  // ConfirmationListenerTool.run
  function Listen(s: Status): PollAnswer {
    if s == Confirmed then PollConfirmed
    else if s in {Rejected, Cancelled, Failed, TimedOut} then PollTerminal("terminal")
    else PollWaiting
  }

  function Heard(db: Database, id: nat, tool: PollTool, attempt: nat): PollAnswer
    requires id < |db.orders|
  {
    match tool
    case OwnListener => Listen(db.orders[id].status)
    case InjectedListener(answers) => answers(attempt)
  }

  function Min(a: real, b: real): real { if a <= b then a else b }

  // One poll begins: the attempt is counted and stamped, and the delay slept.
  function Began(d: Desk, id: nat, delay: real, now: int): Desk
    requires id in d.workflows
  {
    d.(workflows := d.workflows[id := d.workflows[id].(attempts := d.workflows[id].attempts + 1, lastPollAt := Some(now))],
       sleeps := d.sleeps + [delay])
  }

  // What an answer to a poll leads to: None when polling goes on.
  function Answered(d: Desk, id: nat, answer: PollAnswer, attempt: nat, now: int): (r: (Desk, Option<Outcome>))
    requires Known(d, id)
    ensures Known(r.0, id)
  {
    match answer
    case PollConfirmed =>
      var r := Apply(d.db, MarkConfirmed(id, now));
      if r.Err? then (d, Some(Raised(r.error)))
      else (WithStatus(d.(db := r.value), id, Confirmed), Some(Returned(Confirmed, attempt + 1)))
    case PollTerminal(text) =>
      (WithFailure(d.(db := Step(d.db, MarkFailed(id, text))), id, text), Some(Returned(Failed, attempt + 1)))
    case PollWaiting => (d, None)
  }

  // The body of the polling loop.
  function PolledOnce(d: Desk, id: nat, tool: PollTool, attempt: nat, delay: real, now: int): (r: (Desk, Option<Outcome>))
    requires Known(d, id)
    ensures Known(r.0, id)
  {
    var d1 := Began(d, id, delay, now);
    Answered(d1, id, Heard(d1.db, id, tool, attempt), attempt, now)
  }

  // `_poll_for_confirmation` from the given attempt on.
  function Poll(d: Desk, c: Config, id: nat, tool: PollTool, attempt: nat, delay: real, now: int): (r: (Desk, Outcome))
    requires Known(d, id) && attempt <= c.maxAttempts
    ensures Known(r.0, id)
    decreases c.maxAttempts - attempt
  {
    if attempt == c.maxAttempts then
      (WithStatus(d.(db := Step(d.db, MarkTimeout(id))), id, TimedOut), Returned(TimedOut, c.maxAttempts))
    else
      var (d1, stop) := PolledOnce(d, id, tool, attempt, delay, now);
      if stop.Some? then (d1, stop.value)
      else Poll(d1, c, id, tool, attempt + 1, Min(delay * 2.0, c.maxDelay), now)
  }

  // From the approval gate on, once order `id` is drafted and its workflow exists.
  function AfterDraft(d: Desk, c: Config, id: nat, ctx: Context, email: EmailTool, poll: PollTool, now: int): (Desk, Outcome)
    requires Known(d, id)
  {
    var (gated, stop) := ApprovalGate(d, id, ctx.user, ctx.Gate());
    if stop.Some? then (gated, stop.value) else AfterGate(gated, c, id, email, poll, now)
  }

  // From the mail step on.
  function AfterGate(d: Desk, c: Config, id: nat, email: EmailTool, poll: PollTool, now: int): (Desk, Outcome)
    requires Known(d, id)
  {
    var (mailed, stop) := SendEmail(d, id, email, now);
    if stop.Some? then (mailed, stop.value) else Poll(mailed, c, id, poll, 0, c.initialDelay, now)
  }

  // A freshly returned draft is moved to pending_approval; other statuses are left alone.
  function Submitted(d: Desk, id: nat, now: int): (r: Desk)
    requires id < |d.db.orders|
    ensures Known(r, id)
  {
    var d1 := d.(workflows := Created(d.workflows, id));
    if d.db.orders[id].status == Draft
    then d1.(db := Step(d1.db, TransitionTo(id, PendingApproval, now))) else d1
  }

  // `_execute_workflow`
  function Execute(d: Desk, c: Config, ctx: Context, email: EmailTool, poll: PollTool, now: int): (Desk, Outcome) {
    var drafted := DraftResult(d.db, ctx.sku, ctx.supplier, ctx.quantity, ctx.rowAccepted);
    if drafted.Err? then (d, DraftFailed)
    else AfterDraft(Submitted(d.(db := drafted.value.0), drafted.value.1, now), c, drafted.value.1, ctx, email, poll, now)
  }

  // ----- The agent -----

  class WorkflowService {
    var workflows: map<nat, Workflow>

    constructor ()
      ensures workflows == map[]
    {
      workflows := map[];
    }

    method CreateWorkflow(po: nat)
      modifies this
      ensures workflows == Created(old(workflows), po)
    {
      if po in workflows {
        return;
      }
      workflows := workflows[po := Workflow(Draft, None, 0, "", None)];
    }

    method UpdateStatus(id: nat, status: Status, messageId: Option<string>, error: Option<string>, now: int)
      requires id in workflows
      modifies this
      ensures var w0 := old(workflows)[id];
              var w := w0.(status := status, lastPollAt := if status == WaitingConfirmation then Some(now) else w0.lastPollAt);
              var w := if messageId.Some? then w.(messageId := messageId) else w;
              workflows == old(workflows)[id := if error.Some? then w.(error := error.value) else w]
    {
      var w := workflows[id].(status := status);
      if messageId.Some? {
        w := w.(messageId := messageId);
      }
      if error.Some? {
        w := w.(error := error.value);
      }
      if status == WaitingConfirmation {
        w := w.(lastPollAt := Some(now));
      }
      workflows := workflows[id := w];
    }

    method IncrementPollingAttempt(id: nat, now: int)
      requires id in workflows
      modifies this
      ensures var w := old(workflows)[id];
              workflows == old(workflows)[id := w.(attempts := w.attempts + 1, lastPollAt := Some(now))]
    {
      var w := workflows[id];
      workflows := workflows[id := w.(attempts := w.attempts + 1, lastPollAt := Some(now))];
    }

    method MarkConfirmed(id: nat)
      requires id in workflows
      modifies this
      ensures workflows == old(workflows)[id := old(workflows)[id].(status := Confirmed)]
    {
      workflows := workflows[id := workflows[id].(status := Confirmed)];
    }
  }

  class PurchasingAgent {
    const purchasing: PurchasingService
    const workflow: WorkflowService
    const config: Config
    var sleeps: seq<real>

    constructor (purchasing: PurchasingService, workflow: WorkflowService, config: Config)
      ensures this.purchasing == purchasing && this.workflow == workflow && this.config == config && sleeps == []
    {
      this.purchasing, this.workflow, this.config := purchasing, workflow, config;
      sleeps := [];
    }

    function State(): Desk
      reads this, purchasing, workflow
    {
      Desk(purchasing.State(), workflow.workflows, sleeps)
    }

    method ExecuteWorkflow(ctx: Context, email: EmailTool, poll: PollTool, now: int) returns (outcome: Outcome)
      modifies this, purchasing, workflow
      ensures (State(), outcome) == Execute(old(State()), config, ctx, email, poll, now)
    {
      var drafted := purchasing.DraftPo(ctx.sku, ctx.supplier, ctx.quantity, ctx.rowAccepted);
      if drafted.Err? {
        return DraftFailed;
      }
      var id := drafted.value;
      Submit(id, now);
      var stop := HandleApprovalGate(id, ctx, now);
      if stop.Some? {
        return stop.value;
      }
      stop := SendEmailStep(id, email, now);
      if stop.Some? {
        return stop.value;
      }
      outcome := PollForConfirmation(id, poll, now);
    }

    // The workflow record, and the move of a new draft to pending_approval.
    method Submit(id: nat, now: int)
      requires id < |purchasing.orders|
      modifies purchasing, workflow
      ensures State() == Submitted(old(State()), id, now)
    {
      workflow.CreateWorkflow(id);
      if purchasing.orders[id].status == Draft {
        var _ := purchasing.TransitionPoStatus(id, PendingApproval, now);
      }
    }

    method HandleApprovalGate(id: nat, ctx: Context, now: int) returns (stop: Option<Outcome>)
      requires Known(State(), id)
      modifies purchasing, workflow
      ensures (State(), stop) == ApprovalGate(old(State()), id, ctx.user, ctx.Gate())
    {
      workflow.UpdateStatus(id, PendingApproval, None, None, now);
      if ctx.autoApprove && !ctx.isProduction {
        stop := Approve(id, ctx.user, now);
        return;
      }
      if ctx.callback.Some? {
        if !ctx.callback.value {
          var rejected := purchasing.RejectPo(id);
          if rejected.Some? {
            return Some(Raised(rejected.value));
          }
          workflow.UpdateStatus(id, Rejected, None, None, now);
          return Some(Returned(Rejected, 0));
        }
        stop := Approve(id, ctx.user, now);
        return;
      }
      stop := Some(Returned(PendingApproval, 0));
    }

    // The two approving branches: without a user the order is left alone.
    method Approve(id: nat, user: Option<int>, now: int) returns (stop: Option<Outcome>)
      requires Known(State(), id)
      modifies purchasing, workflow
      ensures (State(), stop) == ApprovedBy(old(State()), id, user)
    {
      if user.Some? {
        var approved := purchasing.ApprovePo(id, user.value, true, false);
        if approved.Some? {
          return Some(Raised(approved.value));
        }
      }
      workflow.UpdateStatus(id, Approved, None, None, now);
      stop := None;
    }

    method SendEmailStep(id: nat, tool: EmailTool, now: int) returns (stop: Option<Outcome>)
      requires Known(State(), id)
      modifies purchasing, workflow
      ensures (State(), stop) == SendEmail(old(State()), id, tool, now)
    {
      var answer: EmailAnswer;
      match tool {
        case InjectedEmailTool(a) => answer := a;
        case OwnEmailTool(queueUp, mailId) =>
          var refused := purchasing.RunEmailTool(id, queueUp, mailId);
          answer := if refused.Some? then EmailFailed("not dispatched") else EmailQueued(Some(mailId));
      }
      if answer.EmailFailed? {
        var _ := purchasing.MarkFailed(id, answer.error);
        workflow.UpdateStatus(id, Failed, None, Some(answer.error), now);
        return Some(Returned(Failed, 0));
      }
      var refused := purchasing.MarkEmailSent(id, answer.messageId, now);
      if refused.Some? {
        return Some(Raised(refused.value));
      }
      workflow.UpdateStatus(id, EmailSent, answer.messageId, None, now);
      refused := purchasing.MarkWaiting(id);
      if refused.Some? {
        return Some(Raised(refused.value));
      }
      workflow.UpdateStatus(id, WaitingConfirmation, None, None, now);
      stop := None;
    }

    method PollForConfirmation(id: nat, tool: PollTool, now: int) returns (outcome: Outcome)
      requires Known(State(), id)
      modifies this, purchasing, workflow
      ensures (State(), outcome) == Poll(old(State()), config, id, tool, 0, config.initialDelay, now)
    {
      var delay := config.initialDelay;
      var attempt := 0;
      ghost var result := Poll(State(), config, id, tool, 0, config.initialDelay, now);
      while attempt < config.maxAttempts
        invariant 0 <= attempt <= config.maxAttempts
        invariant Known(State(), id)
        invariant Poll(State(), config, id, tool, attempt, delay, now) == result
      {
        var stop := PollOnce(id, tool, attempt, delay, now);
        if stop.Some? {
          return stop.value;
        }
        delay := Min(delay * 2.0, config.maxDelay);
        attempt := attempt + 1;
      }
      var _ := purchasing.MarkTimeout(id);
      workflow.UpdateStatus(id, TimedOut, None, None, now);
      outcome := Returned(TimedOut, config.maxAttempts);
    }

    // The body of the polling loop.
    method PollOnce(id: nat, tool: PollTool, attempt: nat, delay: real, now: int) returns (stop: Option<Outcome>)
      requires Known(State(), id)
      modifies this, purchasing, workflow
      ensures (State(), stop) == PolledOnce(old(State()), id, tool, attempt, delay, now)
    {
      workflow.IncrementPollingAttempt(id, now);
      sleeps := sleeps + [delay];
      var answer: PollAnswer;
      match tool {
        case OwnListener => answer := Listen(purchasing.orders[id].status);
        case InjectedListener(answers) => answer := answers(attempt);
      }
      stop := HandleAnswer(id, answer, attempt, now);
    }

    // The part of it that acts on an answer.
    method HandleAnswer(id: nat, answer: PollAnswer, attempt: nat, now: int) returns (stop: Option<Outcome>)
      requires Known(State(), id)
      modifies purchasing, workflow
      ensures (State(), stop) == Answered(old(State()), id, answer, attempt, now)
    {
      if answer.PollConfirmed? {
        var refused := purchasing.MarkConfirmed(id, now);
        if refused.Some? {
          return Some(Raised(refused.value));
        }
        workflow.MarkConfirmed(id);
        return Some(Returned(Confirmed, attempt + 1));
      }
      if answer.PollTerminal? {
        var _ := purchasing.MarkFailed(id, answer.text);
        workflow.UpdateStatus(id, Failed, None, Some(answer.text), now);
        return Some(Returned(Failed, attempt + 1));
      }
      stop := None;
    }
  }

  // ----- Order, workflow and report agree -----

  predicate Agree(d: Desk, id: nat, s: Status) {
    Known(d, id) && d.db.orders[id].status == s && d.workflows[id].status == s
  }

  // ----- What the gate is decided by, what the listener says -----

  // The gate approves outside production when asked to, or by its callback; it stops at a missing or
  // a negative answer.  In production auto_approve counts for nothing.
  predicate Approving(ctx: Context) {
    (ctx.autoApprove && !ctx.isProduction) || ctx.callback == Some(true)
  }

  predicate NobodyToAsk(ctx: Context) {
    !(ctx.autoApprove && !ctx.isProduction) && ctx.callback == None
  }

  lemma GateExactly(ctx: Context)
    ensures ctx.Gate() in {AutoApprove, Callback(true)} <==> Approving(ctx)
    ensures ctx.Gate() == NoGate <==> NobodyToAsk(ctx)
    ensures ctx.isProduction ==> (Approving(ctx) <==> ctx.callback == Some(true))
  {
  }

  // The own listener says confirmed for a confirmed order, terminal for one that ended otherwise.
  lemma ListensExactly(s: Status)
    ensures Listen(s).PollConfirmed? <==> s == Confirmed
    ensures Listen(s).PollTerminal? <==> s in {Rejected, Cancelled, Failed, TimedOut}
  {
  }

  lemma {:induction false} PollAgrees(d: Desk, c: Config, id: nat, tool: PollTool, attempt: nat, delay: real, now: int)
    requires Known(d, id) && attempt <= c.maxAttempts
    ensures var r := Poll(d, c, id, tool, attempt, delay, now);
            !r.1.DraftFailed? && (r.1.Returned? ==> Agree(r.0, id, r.1.status))
    decreases c.maxAttempts - attempt
  {
    if attempt < c.maxAttempts && Heard(Began(d, id, delay, now).db, id, tool, attempt).PollWaiting? {
      PollAgrees(Began(d, id, delay, now), c, id, tool, attempt + 1, Min(delay * 2.0, c.maxDelay), now);
    }
  }

  lemma AfterGateAgrees(d: Desk, c: Config, id: nat, email: EmailTool, poll: PollTool, now: int)
    requires Known(d, id)
    ensures var r := AfterGate(d, c, id, email, poll, now);
            !r.1.DraftFailed? && (r.1.Returned? ==> Agree(r.0, id, r.1.status))
  {
    var (mailed, stop) := SendEmail(d, id, email, now);
    if stop.None? {
      PollAgrees(mailed, c, id, poll, 0, c.initialDelay, now);
    }
  }

  lemma AfterDraftAgrees(d: Desk, c: Config, id: nat, ctx: Context, email: EmailTool, poll: PollTool, now: int)
    requires Known(d, id) && d.db.orders[id].status in {PendingApproval, Approved}
    ensures var r := AfterDraft(d, c, id, ctx, email, poll, now);
            && !r.1.DraftFailed?
            && (r.1.Returned? ==>
                  (Agree(r.0, id, r.1.status) <==> !(d.db.orders[id].status == Approved && NobodyToAsk(ctx))))
  {
    GateExactly(ctx);
    AfterGateAgrees(ApprovalGate(d, id, ctx.user, ctx.Gate()).0, c, id, email, poll, now);
  }

  // The order the draft step hands on is submitted: in pending_approval, or approved before.
  lemma SubmittedIsPendingOrApproved(d: Desk, id: nat, now: int)
    requires id < |d.db.orders| && IsActive(d.db.orders[id].status)
    ensures var s, t := d.db.orders[id].status, Submitted(d, id, now).db.orders[id].status;
            t == if s == Approved then Approved else PendingApproval
  {
  }

  // Whatever the oracles answer, a run that returns past the draft step leaves the order, the
  // workflow and the report in the same status, with one exception: the duplicate check handed
  // back an order that was already approved and the run has nobody to ask.
  lemma ReportAgreesExactly(d: Desk, c: Config, ctx: Context, email: EmailTool, poll: PollTool, now: int)
    ensures var drafted := DraftResult(d.db, ctx.sku, ctx.supplier, ctx.quantity, ctx.rowAccepted);
            var r := Execute(d, c, ctx, email, poll, now);
            && (drafted.Err? <==> r.1.DraftFailed?)
            && (r.1.Returned? ==>
                  var (db, id) := drafted.value;
                  Agree(r.0, id, r.1.status) <==> !(db.orders[id].status == Approved && NobodyToAsk(ctx)))
  {
    var drafted := DraftResult(d.db, ctx.sku, ctx.supplier, ctx.quantity, ctx.rowAccepted);
    if drafted.Ok? {
      var (db, id) := drafted.value;
      SubmittedIsPendingOrApproved(d.(db := db), id, now);
      AfterDraftAgrees(Submitted(d.(db := db), id, now), c, id, ctx, email, poll, now);
    }
  }

  // The exception, on a concrete desk: the report says pending_approval, the order is approved.
  lemma ReportCanDisagree()
    ensures var po := NewOrder(1, 1, 5).(status := Approved);
            var d := Desk(Database([po], []), map[], []);
            var r := Execute(d, Config(1.0, 60.0, 10), Context(1, 1, 5, true, None, false, false, None),
                             InjectedEmailTool(EmailFailed("")), OwnListener, 0);
            r.1 == Returned(PendingApproval, 0) && r.0.db.orders[0].status == Approved
  {
    var po := NewOrder(1, 1, 5).(status := Approved);
    assert LastActive([po], 1, 1, 1, 5) == Some(0);
  }

  // ----- What the repository's own tools can lead to -----

  // When the listener says confirmed, the service refuses to mark the order confirmed.
  lemma OwnConfirmationIsRefused(db: Database, id: nat, attempt: nat, now: int)
    requires id < |db.orders|
    ensures Heard(db, id, OwnListener, attempt).PollConfirmed? ==> Apply(db, MarkConfirmed(id, now)) == Err(ValidationFailed)
  {
  }

  // With no interleaved writer the own listener keeps waiting, so polling always runs into the timeout.
  lemma {:induction false} OwnListenerTimesOut(d: Desk, c: Config, id: nat, attempt: nat, delay: real, now: int)
    requires Known(d, id) && attempt <= c.maxAttempts
    requires d.db.orders[id].status == WaitingConfirmation
    ensures Poll(d, c, id, OwnListener, attempt, delay, now).1 == Returned(TimedOut, c.maxAttempts)
    decreases c.maxAttempts - attempt
  {
    if attempt < c.maxAttempts {
      OwnListenerTimesOut(Began(d, id, delay, now), c, id, attempt + 1, Min(delay * 2.0, c.maxDelay), now);
    }
  }

  // How every run with the repository's own tools ends, case by case, for a new order and for one the
  // duplicate check handed back.
  function OwnToolsEnding(approved: bool, c: Config, ctx: Context, queueUp: bool): Outcome {
    if NobodyToAsk(ctx) then Returned(PendingApproval, 0)
    else if !Approving(ctx) then if approved then Raised(IllegalTransition) else Returned(Rejected, 0)
    else if approved && ctx.user.Some? then Raised(IllegalTransition)
    else if (approved || ctx.user.Some?) && queueUp then Returned(TimedOut, c.maxAttempts)
    else Returned(Failed, 0)
  }

  lemma OwnToolsOutcome(d: Desk, c: Config, ctx: Context, queueUp: bool, mailId: string, now: int)
    ensures var drafted := DraftResult(d.db, ctx.sku, ctx.supplier, ctx.quantity, ctx.rowAccepted);
            Execute(d, c, ctx, OwnEmailTool(queueUp, mailId), OwnListener, now).1
            == if drafted.Err? then DraftFailed
               else OwnToolsEnding(drafted.value.0.orders[drafted.value.1].status == Approved, c, ctx, queueUp)
  {
    var drafted := DraftResult(d.db, ctx.sku, ctx.supplier, ctx.quantity, ctx.rowAccepted);
    if drafted.Ok? {
      var (db, id) := drafted.value;
      SubmittedIsPendingOrApproved(d.(db := db), id, now);
      OwnToolsAfterDraft(Submitted(d.(db := db), id, now), c, id, ctx, queueUp, mailId, now);
    }
  }

  lemma OwnToolsAfterDraft(d: Desk, c: Config, id: nat, ctx: Context, queueUp: bool, mailId: string, now: int)
    requires Known(d, id) && d.db.orders[id].status in {PendingApproval, Approved}
    ensures AfterDraft(d, c, id, ctx, OwnEmailTool(queueUp, mailId), OwnListener, now).1
         == OwnToolsEnding(d.db.orders[id].status == Approved, c, ctx, queueUp)
  {
    var (gated, stop) := ApprovalGate(d, id, ctx.user, ctx.Gate());
    GateOutcome(d, id, ctx);
    if stop.None? {
      OwnMailOutcome(gated, id, queueUp, mailId, now);
      var (mailed, stop') := SendEmail(gated, id, OwnEmailTool(queueUp, mailId), now);
      if stop'.None? {
        OwnListenerTimesOut(mailed, c, id, 0, c.initialDelay, now);
      }
    }
  }

  // Where the gate leaves a submitted order: the run goes on with an approved order exactly when the
  // gate approves and just one of the two holds, that a user is given or that it was approved before.
  lemma GateOutcome(d: Desk, id: nat, ctx: Context)
    requires Known(d, id) && d.db.orders[id].status in {PendingApproval, Approved}
    ensures var r := ApprovalGate(d, id, ctx.user, ctx.Gate());
            var approved := d.db.orders[id].status == Approved;
            if NobodyToAsk(ctx) then r.1 == Some(Returned(PendingApproval, 0))
            else if !Approving(ctx) then r.1 == if approved then Some(Raised(IllegalTransition)) else Some(Returned(Rejected, 0))
            else if approved && ctx.user.Some? then r.1 == Some(Raised(IllegalTransition))
            else r.1.None? && r.0.db.orders[id].status == if approved || ctx.user.Some? then Approved else PendingApproval
  {
    GateExactly(ctx);
  }

  // ----- What a run mails and records -----

  // The gate sends nothing, and an order it approves for a user names that user.
  lemma GateSendsNothing(d: Desk, id: nat, ctx: Context)
    requires Known(d, id)
    ensures var r := ApprovalGate(d, id, ctx.user, ctx.Gate());
            && r.0.db.outbox == d.db.outbox
            && (r.1.None? && ctx.user.Some? ==> r.0.db.orders[id].approvedBy == ctx.user)
            && (!(r.1.None? && ctx.user.Some?) ==> r.0.db.orders[id].approvedBy == d.db.orders[id].approvedBy)
  {
  }

  // The mail step hands over one mail exactly when the own tool finds the order approved or sent and
  // the queue up; an injected tool does not use the queue.
  predicate OwnMailGoesOut(db: Database, id: nat, tool: EmailTool)
    requires id < |db.orders|
  {
    tool.OwnEmailTool? && tool.queueUp && db.orders[id].status in {Approved, Sent}
  }

  function OwnMail(id: nat, tool: EmailTool): seq<Mail> {
    if tool.OwnEmailTool? then [Mail(id, tool.mailId)] else []
  }

  lemma MailStepSends(d: Desk, id: nat, tool: EmailTool, now: int)
    requires Known(d, id)
    ensures SendEmail(d, id, tool, now).0.db.outbox
         == d.db.outbox + if OwnMailGoesOut(d.db, id, tool) then OwnMail(id, tool) else []
  {
  }

  lemma {:induction false} PollSendsNothing(d: Desk, c: Config, id: nat, tool: PollTool, attempt: nat, delay: real, now: int)
    requires Known(d, id) && attempt <= c.maxAttempts
    ensures Poll(d, c, id, tool, attempt, delay, now).0.db.outbox == d.db.outbox
    decreases c.maxAttempts - attempt
  {
    if attempt < c.maxAttempts && Heard(Began(d, id, delay, now).db, id, tool, attempt).PollWaiting? {
      PollSendsNothing(Began(d, id, delay, now), c, id, tool, attempt + 1, Min(delay * 2.0, c.maxDelay), now);
    }
  }

  lemma AfterGateSends(d: Desk, c: Config, id: nat, email: EmailTool, poll: PollTool, now: int)
    requires Known(d, id)
    ensures AfterGate(d, c, id, email, poll, now).0.db.outbox
         == d.db.outbox + if OwnMailGoesOut(d.db, id, email) then OwnMail(id, email) else []
  {
    MailStepSends(d, id, email, now);
    var (mailed, stop) := SendEmail(d, id, email, now);
    if stop.None? {
      PollSendsNothing(mailed, c, id, poll, 0, c.initialDelay, now);
    }
  }

  // The run comes to its mail step with an approved order, and the own tool finds the queue up.
  predicate RunMails(ctx: Context, approvedBefore: bool, email: EmailTool) {
    && Approving(ctx) && (ctx.user.Some? <==> !approvedBefore)
    && email.OwnEmailTool? && email.queueUp
  }

  lemma AfterDraftSends(d: Desk, c: Config, id: nat, ctx: Context, email: EmailTool, poll: PollTool, now: int)
    requires Known(d, id) && d.db.orders[id].status in {PendingApproval, Approved}
    ensures AfterDraft(d, c, id, ctx, email, poll, now).0.db.outbox
         == d.db.outbox + if RunMails(ctx, d.db.orders[id].status == Approved, email) then OwnMail(id, email) else []
  {
    GateOutcome(d, id, ctx);
    GateSendsNothing(d, id, ctx);
    AfterGateSends(ApprovalGate(d, id, ctx.user, ctx.Gate()).0, c, id, email, poll, now);
  }

  // A whole run hands over one mail, to its own order and under the tool's id, exactly when it comes to
  // the mail step with an approved order and the own tool finds the queue up; otherwise none at all.
  lemma RunMailsExactly(d: Desk, c: Config, ctx: Context, email: EmailTool, poll: PollTool, now: int)
    ensures var drafted := DraftResult(d.db, ctx.sku, ctx.supplier, ctx.quantity, ctx.rowAccepted);
            var after := Execute(d, c, ctx, email, poll, now).0.db.outbox;
            if drafted.Ok? && RunMails(ctx, drafted.value.0.orders[drafted.value.1].status == Approved, email)
            then after == d.db.outbox + [Mail(drafted.value.1, email.mailId)]
            else after == d.db.outbox
  {
    var drafted := DraftResult(d.db, ctx.sku, ctx.supplier, ctx.quantity, ctx.rowAccepted);
    if drafted.Ok? {
      var (db, id) := drafted.value;
      SubmittedIsPendingOrApproved(d.(db := db), id, now);
      SubmissionSendsNothing(d.(db := db), id, now);
      AfterDraftSends(Submitted(d.(db := db), id, now), c, id, ctx, email, poll, now);
      assert d.db.outbox + [] == d.db.outbox;
    }
  }

  lemma SubmissionSendsNothing(d: Desk, id: nat, now: int)
    requires id < |d.db.orders|
    ensures Submitted(d, id, now).db.outbox == d.db.outbox
  {
  }

  // A new order's workflow starts as a blank draft; one that exists is kept.
  lemma WorkflowStartsBlank(d: Desk, id: nat, now: int)
    requires id < |d.db.orders|
    ensures var after := Submitted(d, id, now).workflows;
            && (id !in d.workflows ==> after == d.workflows[id := Workflow(Draft, None, 0, "", None)])
            && (id in d.workflows ==> after == d.workflows)
  {
  }

  // The gate leaves the workflow approved when the run goes on, and pending when the approval raises.
  lemma WorkflowFollowsGate(d: Desk, id: nat, user: Option<int>, gate: Gate)
    requires Known(d, id)
    ensures var (after, stop) := ApprovalGate(d, id, user, gate);
            && after.workflows[id].status
               == (if stop.None? then Approved else if stop.value.Returned? then stop.value.status else PendingApproval)
            && after.workflows == d.workflows[id := d.workflows[id].(status := after.workflows[id].status)]
  {
  }

  // Once a poll was made, the workflow carries its time.
  lemma {:induction false} PollIsStamped(d: Desk, c: Config, id: nat, tool: PollTool, attempt: nat, delay: real, now: int)
    requires Known(d, id) && attempt <= c.maxAttempts
    requires attempt < c.maxAttempts || d.workflows[id].lastPollAt == Some(now)
    ensures Poll(d, c, id, tool, attempt, delay, now).0.workflows[id].lastPollAt == Some(now)
    decreases c.maxAttempts - attempt
  {
    if attempt < c.maxAttempts {
      var (d1, stop) := PolledOnce(d, id, tool, attempt, delay, now);
      if stop.None? {
        PollIsStamped(d1, c, id, tool, attempt + 1, Min(delay * 2.0, c.maxDelay), now);
      }
    }
  }

  // When the run goes on past the mail step, order and workflow carry the message id of the mail (one
  // that is given and not empty), and the order its send time; a failed mail leaves its error on both.
  lemma MailIsRecorded(d: Desk, id: nat, tool: EmailTool, now: int)
    requires Known(d, id)
    ensures var r, answer := SendEmail(d, id, tool, now), EmailAnswered(d.db, id, tool).1;
            var po, workflow := r.0.db.orders[id], r.0.workflows[id];
            && (r.1.None? ==>
                  && po.sentAt == Some(now) && workflow.lastPollAt == Some(now)
                  && answer.EmailQueued?
                  && (answer.messageId.Some? ==> workflow.messageId == answer.messageId)
                  && (answer.messageId.Some? && answer.messageId != Some("") ==> po.messageId == answer.messageId))
            && (answer.EmailFailed? ==>
                  workflow.error == answer.error && (answer.error != "" ==> po.notes == answer.error))
  {
  }

  // The own tool's answer: its own mail id when it dispatched, a failure otherwise.
  lemma OwnAnswerExactly(db: Database, id: nat, queueUp: bool, mailId: string)
    requires id < |db.orders|
    ensures EmailAnswered(db, id, OwnEmailTool(queueUp, mailId)).1
         == if queueUp && db.orders[id].status in {Approved, Sent} then EmailQueued(Some(mailId)) else EmailFailed("not dispatched")
  {
  }

  // The own email tool lets the run go on exactly when the order is approved or sent and the queue is up.
  lemma OwnMailOutcome(d: Desk, id: nat, queueUp: bool, mailId: string, now: int)
    requires Known(d, id)
    ensures var r := SendEmail(d, id, OwnEmailTool(queueUp, mailId), now);
            if queueUp && d.db.orders[id].status in {Approved, Sent}
            then r.1.None? && r.0.db.orders[id].status == WaitingConfirmation
            else r.1 == Some(Returned(Failed, 0))
  {
  }

  // ----- When a run is confirmed -----

  predicate Confirms(r: Outcome) {
    r.Returned? && r.status == Confirmed
  }

  // With the repository's own listener no run reports a confirmation, whatever the desk, the
  // context and the mail tool.
  lemma OwnListenerNeverConfirms(d: Desk, c: Config, ctx: Context, email: EmailTool, now: int)
    ensures !Confirms(Execute(d, c, ctx, email, OwnListener, now).1)
  {
    var drafted := DraftResult(d.db, ctx.sku, ctx.supplier, ctx.quantity, ctx.rowAccepted);
    if drafted.Ok? {
      var (db, id) := drafted.value;
      OwnAfterDraftNeverConfirms(Submitted(d.(db := db), id, now), c, id, ctx, email, now);
    }
  }

  lemma OwnAfterDraftNeverConfirms(d: Desk, c: Config, id: nat, ctx: Context, email: EmailTool, now: int)
    requires Known(d, id)
    ensures !Confirms(AfterDraft(d, c, id, ctx, email, OwnListener, now).1)
  {
    OwnAfterGateNeverConfirms(ApprovalGate(d, id, ctx.user, ctx.Gate()).0, c, id, email, now);
  }

  lemma OwnAfterGateNeverConfirms(d: Desk, c: Config, id: nat, email: EmailTool, now: int)
    requires Known(d, id)
    ensures !Confirms(AfterGate(d, c, id, email, OwnListener, now).1)
  {
    var (mailed, stop) := SendEmail(d, id, email, now);
    if stop.None? {
      OwnPollNeverConfirms(mailed, c, id, 0, c.initialDelay, now);
    }
  }

  lemma {:induction false} OwnPollNeverConfirms(d: Desk, c: Config, id: nat, attempt: nat, delay: real, now: int)
    requires Known(d, id) && attempt <= c.maxAttempts
    ensures !Confirms(Poll(d, c, id, OwnListener, attempt, delay, now).1)
    decreases c.maxAttempts - attempt
  {
    if attempt < c.maxAttempts {
      var d1 := Began(d, id, delay, now);
      OwnConfirmationIsRefused(d1.db, id, attempt, now);
      if Heard(d1.db, id, OwnListener, attempt).PollWaiting? {
        OwnPollNeverConfirms(d1, c, id, attempt + 1, Min(delay * 2.0, c.maxDelay), now);
      }
    }
  }

  // An injected listener waits up to poll k and confirms there.
  predicate ConfirmsAt(tool: PollTool, from: nat, k: nat) {
    && tool.InjectedListener? && from <= k
    && tool.answers(k).PollConfirmed? && forall i: nat :: from <= i < k ==> tool.answers(i).PollWaiting?
  }

  lemma ConfirmsFromNext(tool: PollTool, from: nat, k: nat)
    requires tool.InjectedListener?
    ensures ConfirmsAt(tool, from, k)
       <==> if tool.answers(from).PollWaiting? then ConfirmsAt(tool, from + 1, k) else k == from && tool.answers(k).PollConfirmed?
  {
  }

  lemma {:induction false} PollConfirmsExactly(d: Desk, c: Config, id: nat, tool: PollTool, attempt: nat, delay: real, now: int, k: nat)
    requires Known(d, id) && attempt <= c.maxAttempts
    requires d.db.orders[id].status == WaitingConfirmation
    ensures Poll(d, c, id, tool, attempt, delay, now).1 == Returned(Confirmed, k + 1)
       <==> k < c.maxAttempts && ConfirmsAt(tool, attempt, k)
    decreases c.maxAttempts - attempt
  {
    if tool.InjectedListener? {
      ConfirmsFromNext(tool, attempt, k);
    }
    if attempt < c.maxAttempts && Heard(d.db, id, tool, attempt).PollWaiting? {
      PollConfirmsExactly(Began(d, id, delay, now), c, id, tool, attempt + 1, Min(delay * 2.0, c.maxDelay), now, k);
    }
  }

  predicate Queues(tool: EmailTool) {
    match tool
    case OwnEmailTool(queueUp, _) => queueUp
    case InjectedEmailTool(answer) => answer.EmailQueued?
  }

  // A run ends confirmed at poll k exactly when the order is drafted, the gate approves, a user is
  // given unless the order was approved before (and not otherwise), the mail is queued, and an
  // injected listener waits before poll k and confirms there.
  lemma ConfirmedExactly(d: Desk, c: Config, ctx: Context, email: EmailTool, poll: PollTool, now: int, k: nat)
    ensures var drafted := DraftResult(d.db, ctx.sku, ctx.supplier, ctx.quantity, ctx.rowAccepted);
            Execute(d, c, ctx, email, poll, now).1 == Returned(Confirmed, k + 1)
            <==> && drafted.Ok?
                 && Approving(ctx)
                 && (ctx.user.Some? <==> drafted.value.0.orders[drafted.value.1].status != Approved)
                 && Queues(email)
                 && k < c.maxAttempts && ConfirmsAt(poll, 0, k)
  {
    var drafted := DraftResult(d.db, ctx.sku, ctx.supplier, ctx.quantity, ctx.rowAccepted);
    if drafted.Ok? {
      var (db, id) := drafted.value;
      SubmittedIsPendingOrApproved(d.(db := db), id, now);
      AfterDraftConfirms(Submitted(d.(db := db), id, now), c, id, ctx, email, poll, now, k);
    }
  }

  lemma AfterDraftConfirms(d: Desk, c: Config, id: nat, ctx: Context, email: EmailTool, poll: PollTool, now: int, k: nat)
    requires Known(d, id) && d.db.orders[id].status in {PendingApproval, Approved}
    ensures AfterDraft(d, c, id, ctx, email, poll, now).1 == Returned(Confirmed, k + 1)
       <==> && Approving(ctx) && (ctx.user.Some? <==> d.db.orders[id].status != Approved)
            && Queues(email) && k < c.maxAttempts && ConfirmsAt(poll, 0, k)
  {
    GateOutcome(d, id, ctx);
    AfterGateConfirms(ApprovalGate(d, id, ctx.user, ctx.Gate()).0, c, id, email, poll, now, k);
  }

  lemma AfterGateConfirms(d: Desk, c: Config, id: nat, email: EmailTool, poll: PollTool, now: int, k: nat)
    requires Known(d, id)
    ensures AfterGate(d, c, id, email, poll, now).1 == Returned(Confirmed, k + 1)
       <==> d.db.orders[id].status in {Approved, Sent} && Queues(email) && k < c.maxAttempts && ConfirmsAt(poll, 0, k)
  {
    MailGoesOnExactly(d, id, email, now);
    var (mailed, stop) := SendEmail(d, id, email, now);
    if stop.None? {
      PollConfirmsExactly(mailed, c, id, poll, 0, c.initialDelay, now, k);
    }
  }

  // The run goes on past the mail step exactly when the order is approved or sent and the mail is queued.
  lemma MailGoesOnExactly(d: Desk, id: nat, tool: EmailTool, now: int)
    requires Known(d, id)
    ensures var r := SendEmail(d, id, tool, now);
            && (r.1.None? <==> Queues(tool) && d.db.orders[id].status in {Approved, Sent})
            && (r.1.None? ==> r.0.db.orders[id].status == WaitingConfirmation)
            && (r.1.Some? ==> !Confirms(r.1.value))
  {
  }

  // ----- Polling: attempts and backoff -----

  // The delay before poll k.
  function Delay(c: Config, k: nat): real {
    if k == 0 then c.initialDelay else Min(Delay(c, k - 1) * 2.0, c.maxDelay)
  }

  function Pow2(k: nat): (r: real)
    ensures r >= 1.0
  {
    if k == 0 then 1.0 else 2.0 * Pow2(k - 1)
  }

  // The number of polls a run made: the increase of the workflow's counter.
  function Polls(before: Desk, after: Desk, id: nat): int
    requires id in before.workflows && id in after.workflows
  {
    after.workflows[id].attempts - before.workflows[id].attempts
  }

  // The delays of n consecutive polls.
  function Delays(c: Config, from: nat, n: nat): (r: seq<real>)
    ensures |r| == n
    ensures forall k :: 0 <= k < n ==> r[k] == Delay(c, from + k)
  {
    if n == 0 then [] else Delays(c, from, n - 1) + [Delay(c, from + n - 1)]
  }

  lemma {:induction false} DelaysFirst(c: Config, from: nat, n: nat)
    ensures Delays(c, from, n + 1) == [Delay(c, from)] + Delays(c, from + 1, n)
  {
  }

  // The counter grew by the number of sleeps, the k-th sleep is `Delay(k)`, a returned attempt count
  // equals the polls made, and no more than `maxAttempts` were made.
  predicate Accounts(c: Config, before: Desk, r: (Desk, Outcome), id: nat, attempt: nat)
    requires id in before.workflows && id in r.0.workflows
  {
    var n := Polls(before, r.0, id);
    && 0 <= n <= c.maxAttempts - attempt
    && (r.1.Returned? ==> r.1.attempts == attempt + n)
    && r.0.sleeps == before.sleeps + Delays(c, attempt, n)
  }

  lemma OnePollMore(c: Config, d: Desk, r: (Desk, Outcome), id: nat, attempt: nat, now: int)
    requires id in d.workflows && id in r.0.workflows
    requires Accounts(c, Began(d, id, Delay(c, attempt), now), r, id, attempt + 1)
    ensures Accounts(c, d, r, id, attempt)
  {
    var d1 := Began(d, id, Delay(c, attempt), now);
    var n := Polls(d1, r.0, id);
    DelaysFirst(c, attempt, n);
    assert d1.sleeps + Delays(c, attempt + 1, n) == d.sleeps + ([Delay(c, attempt)] + Delays(c, attempt + 1, n));
  }

  lemma LastPoll(c: Config, d: Desk, id: nat, answer: PollAnswer, attempt: nat, now: int)
    requires Known(d, id) && attempt < c.maxAttempts && !answer.PollWaiting?
    ensures var (after, stop) := Answered(Began(d, id, Delay(c, attempt), now), id, answer, attempt, now);
            stop.Some? && Accounts(c, d, (after, stop.value), id, attempt)
  {
    DelaysFirst(c, attempt, 0);
    assert Began(d, id, Delay(c, attempt), now).sleeps == d.sleeps + Delays(c, attempt, 1);
  }

  lemma {:induction false} PollAccounting(d: Desk, c: Config, id: nat, tool: PollTool, attempt: nat, now: int)
    requires Known(d, id) && attempt <= c.maxAttempts
    ensures Accounts(c, d, Poll(d, c, id, tool, attempt, Delay(c, attempt), now), id, attempt)
    decreases c.maxAttempts - attempt
  {
    if attempt < c.maxAttempts {
      var d1 := Began(d, id, Delay(c, attempt), now);
      var answer := Heard(d1.db, id, tool, attempt);
      if answer.PollWaiting? {
        PollAccounting(d1, c, id, tool, attempt + 1, now);
        OnePollMore(c, d, Poll(d1, c, id, tool, attempt + 1, Delay(c, attempt + 1), now), id, attempt, now);
      } else {
        LastPoll(c, d, id, answer, attempt, now);
      }
    }
  }

  // initial * 2^k, the schedule without its cap.
  function Uncapped(c: Config, k: nat): real {
    if k == 0 then c.initialDelay else 2.0 * Uncapped(c, k - 1)
  }

  lemma {:induction false} UncappedIsPower(c: Config, k: nat)
    ensures Uncapped(c, k) == c.initialDelay * Pow2(k)
  {
    if k > 0 {
      UncappedIsPower(c, k - 1);
      var a, p := c.initialDelay, Pow2(k - 1);
      assert a * (2.0 * p) == 2.0 * (a * p);
    }
  }

  // The closed form of the schedule, for every non-negative configuration.  Only the very first
  // delay ignores the cap.
  lemma {:induction false} DelayClosedForm(c: Config, k: nat)
    requires 0.0 <= c.initialDelay && 0.0 <= c.maxDelay
    ensures 0.0 <= Uncapped(c, k)
    ensures Delay(c, k) == if k == 0 then c.initialDelay else Min(Uncapped(c, k), c.maxDelay)
  {
    if k > 0 {
      DelayClosedForm(c, k - 1);
    }
  }

  // The documented schedule: initial * 2^k, capped.
  function Capped(c: Config, k: nat): real {
    Min(c.initialDelay * Pow2(k), c.maxDelay)
  }

  // Every delay is min(initial * 2^k, max) exactly when the first delay is within the cap.
  lemma CappedEverywhereIff(c: Config)
    requires 0.0 <= c.initialDelay && 0.0 <= c.maxDelay
    ensures (forall k: nat :: Delay(c, k) == Capped(c, k)) <==> c.initialDelay <= c.maxDelay
  {
    UncappedIsPower(c, 0);
    if c.initialDelay <= c.maxDelay {
      forall k: nat
        ensures Delay(c, k) == Capped(c, k)
      {
        DelayClosedForm(c, k);
        UncappedIsPower(c, k);
      }
    } else {
      assert Delay(c, 0) != Capped(c, 0);
    }
  }

  // n times the same delay.
  function Times(n: nat, delay: real): real {
    if n == 0 then 0.0 else Times(n - 1, delay) + delay
  }

  lemma {:induction false} TimesIsProduct(n: nat, delay: real)
    ensures Times(n, delay) == n as real * delay
  {
    if n > 0 {
      TimesIsProduct(n - 1, delay);
      assert (n - 1) as real * delay + delay == ((n - 1) as real + 1.0) * delay;
    }
  }

  // The time the first n polls sleep.
  function Total(c: Config, n: nat): real {
    if n == 0 then 0.0 else Total(c, n - 1) + Delay(c, n - 1)
  }

  lemma {:induction false} TotalIsSum(c: Config, n: nat)
    ensures Total(c, n) == Sum(Delays(c, 0, n))
  {
    if n > 0 {
      TotalIsSum(c, n - 1);
      assert Delays(c, 0, n)[..n - 1] == Delays(c, 0, n - 1);
    }
  }

  lemma {:induction false} TotalWithinBoth(c: Config, n: nat)
    requires 0.0 <= c.initialDelay <= c.maxDelay
    ensures 0.0 <= Total(c, n) <= Times(n, c.maxDelay)
    ensures Total(c, n) <= Uncapped(c, n) - c.initialDelay
  {
    if n > 0 {
      TotalWithinBoth(c, n - 1);
      DelayClosedForm(c, n - 1);
    }
  }

  // n * max and initial * (2^n - 1) both bound the time n polls sleep.
  predicate SleepWithinBounds(c: Config, n: nat, total: real) {
    0.0 <= total <= n as real * c.maxDelay && total <= c.initialDelay * (Pow2(n) - 1.0)
  }

  lemma WithinAttempts(c: Config, n: nat)
    requires 0.0 <= c.initialDelay <= c.maxDelay
    ensures 0.0 <= Total(c, n) <= n as real * c.maxDelay
  {
    TotalWithinBoth(c, n);
    TimesIsProduct(n, c.maxDelay);
  }

  lemma WithinDoubling(c: Config, n: nat)
    requires 0.0 <= c.initialDelay <= c.maxDelay
    ensures Total(c, n) <= c.initialDelay * (Pow2(n) - 1.0)
  {
    TotalWithinBoth(c, n);
    UncappedIsPower(c, n);
    LessOne(c.initialDelay, Pow2(n));
  }

  lemma LessOne(a: real, p: real)
    ensures a * (p - 1.0) == a * p - a
  {
  }

  lemma ScheduleWithinBounds(c: Config, n: nat)
    requires 0.0 <= c.initialDelay <= c.maxDelay
    ensures SleepWithinBounds(c, n, Total(c, n))
  {
    WithinAttempts(c, n);
    WithinDoubling(c, n);
  }

  // Whatever ends it, one run's sleeps add up to no more than either bound for its number of polls.
  lemma PollSleepBounded(d: Desk, c: Config, id: nat, tool: PollTool, now: int)
    requires Known(d, id) && 0.0 <= c.initialDelay <= c.maxDelay
    ensures var after := Poll(d, c, id, tool, 0, c.initialDelay, now).0;
            && 0 <= Polls(d, after, id) <= c.maxAttempts
            && |d.sleeps| <= |after.sleeps|
            && SleepWithinBounds(c, Polls(d, after, id), Sum(after.sleeps[|d.sleeps|..]))
  {
    PollAccounting(d, c, id, tool, 0, now);
    var after := Poll(d, c, id, tool, 0, c.initialDelay, now).0;
    var n := Polls(d, after, id);
    assert after.sleeps[|d.sleeps|..] == Delays(c, 0, n);
    TotalIsSum(c, n);
    ScheduleWithinBounds(c, n);
  }
}
