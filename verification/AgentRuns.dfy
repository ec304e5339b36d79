// A run of the purchasing agent is a run of service calls, so what holds over every run of those
// calls (module PurchasingRuns) holds for the agent too.
module AgentRuns {
  import opened Wrappers
  import opened Purchasing
  import opened PurchasingRuns
  import opened PurchasingAgents

  function StepAll(db: Database, ops: seq<Op>): Database {
    if |ops| == 0 then db else Step(StepAll(db, ops[..|ops| - 1]), ops[|ops| - 1])
  }

  lemma StepAllAppend(db: Database, ops: seq<Op>, op: Op)
    ensures StepAll(db, ops + [op]) == Step(StepAll(db, ops), op)
  {
    assert (ops + [op])[..|ops|] == ops;
  }

  lemma StepAllOne(db: Database, op: Op)
    ensures StepAll(db, [op]) == Step(db, op)
  {
    StepAllAppend(db, [], op);
    assert [] + [op] == [op];
  }

  lemma {:induction false} StepAllConcat(db: Database, a: seq<Op>, b: seq<Op>)
    ensures StepAll(db, a + b) == StepAll(StepAll(db, a), b)
  {
    if b == [] {
      assert a + b == a;
    } else {
      StepAllConcat(db, a, b[..|b| - 1]);
      assert (a + b)[..|a + b| - 1] == a + b[..|b| - 1];
    }
  }

  lemma {:induction false} PollCalls(d: Desk, c: Config, id: nat, tool: PollTool, attempt: nat, delay: real, now: int) returns (ops: seq<Op>)
    requires Known(d, id) && attempt <= c.maxAttempts
    ensures StepAll(d.db, ops) == Poll(d, c, id, tool, attempt, delay, now).0.db
    decreases c.maxAttempts - attempt
  {
    if attempt == c.maxAttempts {
      ops := [MarkTimeout(id)];
      StepAllOne(d.db, MarkTimeout(id));
    } else {
      var d1 := Began(d, id, delay, now);
      match Heard(d1.db, id, tool, attempt)
      case PollConfirmed =>
        ops := [MarkConfirmed(id, now)];
        StepAllOne(d.db, MarkConfirmed(id, now));
      case PollTerminal(text) =>
        ops := [MarkFailed(id, text)];
        StepAllOne(d.db, MarkFailed(id, text));
      case PollWaiting =>
        ops := PollCalls(d1, c, id, tool, attempt + 1, Min(delay * 2.0, c.maxDelay), now);
    }
  }

  lemma MailCalls(d: Desk, id: nat, tool: EmailTool, now: int) returns (ops: seq<Op>)
    requires Known(d, id)
    ensures StepAll(d.db, ops) == SendEmail(d, id, tool, now).0.db
  {
    var first := if tool.OwnEmailTool? then [RunEmailTool(id, tool.queueUp, tool.mailId)] else [];
    var (db, answer) := EmailAnswered(d.db, id, tool);
    assert StepAll(d.db, []) == d.db;
    if tool.OwnEmailTool? {
      StepAllOne(d.db, first[0]);
    }
    assert StepAll(d.db, first) == db;
    match answer {
      case EmailFailed(error) =>
        ops := first + [MarkFailed(id, error)];
        StepAllAppend(d.db, first, MarkFailed(id, error));
      case EmailQueued(messageId) =>
        var sent := first + [MarkEmailSent(id, messageId, now)];
        StepAllAppend(d.db, first, MarkEmailSent(id, messageId, now));
        ops := if Apply(db, MarkEmailSent(id, messageId, now)).Ok? then sent + [MarkWaiting(id)] else sent;
        StepAllAppend(d.db, sent, MarkWaiting(id));
    }
  }

  lemma GateCalls(d: Desk, id: nat, user: Option<int>, gate: Gate) returns (ops: seq<Op>)
    requires Known(d, id)
    ensures StepAll(d.db, ops) == ApprovalGate(d, id, user, gate).0.db
  {
    if gate == Callback(false) {
      ops := [RejectPo(id)];
      StepAllOne(d.db, RejectPo(id));
    } else if gate != NoGate && user.Some? {
      ops := [ApprovePo(id, user.value, true, false)];
      StepAllOne(d.db, ApprovePo(id, user.value, true, false));
    } else {
      ops := [];
    }
  }

  lemma AfterDraftCalls(d: Desk, c: Config, id: nat, ctx: Context, email: EmailTool, poll: PollTool, now: int) returns (ops: seq<Op>)
    requires Known(d, id)
    ensures StepAll(d.db, ops) == AfterDraft(d, c, id, ctx, email, poll, now).0.db
  {
    ops := GateCalls(d, id, ctx.user, ctx.Gate());
    var (gated, stop) := ApprovalGate(d, id, ctx.user, ctx.Gate());
    if stop.None? {
      var mail := MailCalls(gated, id, email, now);
      StepAllConcat(d.db, ops, mail);
      ops := ops + mail;
      var (mailed, stop') := SendEmail(gated, id, email, now);
      if stop'.None? {
        var polls := PollCalls(mailed, c, id, poll, 0, c.initialDelay, now);
        StepAllConcat(d.db, ops, polls);
        ops := ops + polls;
      }
    }
  }

  // A whole run of the agent changes the order tables only by a sequence of service calls.
  lemma AgentIsARunOfCalls(d: Desk, c: Config, ctx: Context, email: EmailTool, poll: PollTool, now: int) returns (ops: seq<Op>)
    ensures StepAll(d.db, ops) == Execute(d, c, ctx, email, poll, now).0.db
  {
    var draft := DraftPo(ctx.sku, ctx.supplier, ctx.quantity, ctx.rowAccepted);
    var drafted := DraftResult(d.db, ctx.sku, ctx.supplier, ctx.quantity, ctx.rowAccepted);
    ops := [];
    if drafted.Ok? {
      var (db, id) := drafted.value;
      StepAllOne(d.db, draft);
      ops := [draft];
      if db.orders[id].status == Draft {
        StepAllAppend(d.db, ops, TransitionTo(id, PendingApproval, now));
        ops := ops + [TransitionTo(id, PendingApproval, now)];
      }
      var d1 := Submitted(d.(db := db), id, now);
      var rest := AfterDraftCalls(d1, c, id, ctx, email, poll, now);
      StepAllConcat(d.db, ops, rest);
      ops := ops + rest;
    }
  }

  // A run goes on with more calls: the longer trace begins with the old one and ends where the calls lead.
  lemma {:induction false} ExtendRun(trace: seq<Database>, ops: seq<Op>, more: seq<Op>) returns (longer: seq<Database>)
    requires IsRun(trace, ops)
    ensures IsRun(longer, ops + more) && trace <= longer
    ensures longer[|longer| - 1] == StepAll(trace[|ops|], more)
  {
    if more == [] {
      longer := trace;
      assert ops + more == ops;
    } else {
      var init, op := more[..|more| - 1], more[|more| - 1];
      var shorter := ExtendRun(trace, ops, init);
      longer := shorter + [Step(shorter[|shorter| - 1], op)];
      assert ops + more == (ops + init) + [op];
    }
  }

  // An agent run that starts where some run of calls ended leads where a longer run of calls ends.
  lemma AgentExtendsRun(trace: seq<Database>, ops: seq<Op>, d: Desk, c: Config, ctx: Context, email: EmailTool, poll: PollTool, now: int)
    returns (longer: seq<Database>, all: seq<Op>)
    requires IsRunFromEmpty(trace, ops) && d.db == trace[|ops|]
    ensures IsRunFromEmpty(longer, all) && trace <= longer
    ensures longer[|all|] == Execute(d, c, ctx, email, poll, now).0.db
  {
    var more := AgentIsARunOfCalls(d, c, ctx, email, poll, now);
    longer := ExtendRun(trace, ops, more);
    all := ops + more;
    assert longer[0] == trace[0];
  }

  // After an agent run, whatever its oracles answered: every order beyond approval was in
  // `approved` at some point, before the run or during it ...
  lemma AgentSuppliesOnlyApproved(trace: seq<Database>, ops: seq<Op>, d: Desk, c: Config, ctx: Context, email: EmailTool, poll: PollTool, now: int, id: nat)
    returns (longer: seq<Database>, all: seq<Op>, k: nat)
    requires IsRunFromEmpty(trace, ops) && d.db == trace[|ops|]
    requires id < |Execute(d, c, ctx, email, poll, now).0.db.orders|
    requires BeyondApproval(Execute(d, c, ctx, email, poll, now).0.db.orders[id].status)
    ensures IsRunFromEmpty(longer, all) && trace <= longer
    ensures k < |all| && HasOrder(longer[k], id, Approved)
  {
    longer, all := AgentExtendsRun(trace, ops, d, c, ctx, email, poll, now);
    k := SuppliedOnlyAfterApproved(longer, all, |all|, id);
  }

  // ... and at most one order per key is active.
  lemma AgentKeepsOneActive(trace: seq<Database>, ops: seq<Op>, d: Desk, c: Config, ctx: Context, email: EmailTool, poll: PollTool, now: int)
    requires IsRunFromEmpty(trace, ops) && d.db == trace[|ops|]
    ensures UniqueConstraint(Execute(d, c, ctx, email, poll, now).0.db)
    ensures OneActivePerKey(Execute(d, c, ctx, email, poll, now).0.db)
  {
    var longer, all := AgentExtendsRun(trace, ops, d, c, ctx, email, poll, now);
    OneActiveAlways(longer, all, |all|);
    UniqueConstraintNeverViolated(longer, all, |all|);
  }

  // An order on which polling can no longer be confirmed.
  predicate BeyondConfirmation(db: Database, id: nat) {
    id < |db.orders| && db.orders[id].status in {Confirmed, Failed, TimedOut}
  }

  lemma {:induction false} BeyondConfirmationStays(db: Database, ops: seq<Op>, id: nat)
    requires BeyondConfirmation(db, id)
    ensures BeyondConfirmation(StepAll(db, ops), id)
  {
    if |ops| > 0 {
      var before := StepAll(db, ops[..|ops| - 1]);
      BeyondConfirmationStays(db, ops[..|ops| - 1], id);
      RowKeepsKey(before, ops[|ops| - 1], id);
    }
  }

  // Other writers do not help: once the repository's own listener has answered that the order is
  // confirmed, `mark_confirmed` is refused after any service calls in between.
  lemma OwnConfirmationStaysRefused(db: Database, ops: seq<Op>, id: nat, attempt: nat, now: int)
    requires id < |db.orders|
    ensures Heard(db, id, OwnListener, attempt).PollConfirmed?
       ==> Apply(StepAll(db, ops), MarkConfirmed(id, now)) == Err(ValidationFailed)
  {
    if Heard(db, id, OwnListener, attempt).PollConfirmed? {
      BeyondConfirmationStays(db, ops, id);
    }
  }
}
