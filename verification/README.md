# SmartStock: a verified model

A Dafny model of the parts of SmartStock that carry a promise over more than one call, and proofs
of those promises. `dafny verify dfyconfig.toml` checks everything.

| file | what it models |
|---|---|
| `Purchasing.dfy` | purchase orders, the service that changes them, the supplier-timeout task |
| `PurchasingRuns.dfy` | what every run of those calls keeps |
| `PurchasingAgent.dfy` | the purchasing agent's workflow, its oracles, polling and backoff |
| `AgentRuns.dfy` | an agent run as a run of service calls |
| `ReorderPipeline.dfy` | reorder flags, the flag processor, the daily pipeline as a protocol |
| `CircuitBreaker.dfy`, `Failover.dfy` | provider health, provider ranking, failover |
| `TokenRefresh.dfy` | the single-flight token refresh of the HTTP client |
| `Json.dfy`, `InvoiceParser.dfy` | JSON values and the tolerant invoice parser |
| `Inventory.dfy`, `InvoiceScan.dfy` | invoice application, stock, the scan state machine |
| `HybridSearch.dfy`, `Forecast.dfy` | search-result merge, the two stockout windows |
| `Alerts.dfy` | alert cooldown and escalation deduplication |
| `StableSort.dfy`, `Sequences.dfy`, `Wrappers.dfy` | Python's stable sort; sequence helpers; option and result types |

Code that changes stored rows or fields is a class whose methods reassign them. Each method's
contract ties the new state to a pure step function; the theorems are about runs of steps, which
may come in any order and with any arguments. Clocks, the language and vision models, the approval
callback, the mail queue, injected tools and Python's text conversions are arguments or oracles:
everything is proved for every answer they may give.

Three conventions. A table is a sequence and a primary key a position in it, since nothing in the
modelled code deletes rows. A call that raises leaves the state as it was, because the source runs
it in a transaction or checks before it writes, except where the model says otherwise: `confirm_scan`
may book stock and then fail to store the scan, a flag may fail after its draft, a sweep on any row.
Otherwise each service call is one atomic step. Time is a number that does not run backwards.

Where the code and what is said about it differ, the model follows the code:

- Terminal order statuses are not final: `mark_failed` and `mark_timeout` have no guard, and they are
  exactly the calls that change one.
- The agent's documented happy path ends in CONFIRMED, but with the repository's own confirmation
  tool no run can get there: that tool says confirmed only when the order already is, and
  `mark_confirmed` then refuses it, whatever others did in between. `ConfirmedExactly` gives the exact runs that do end confirmed;
  all of them have an injected listener.
- An approval that names no user moves the workflow to APPROVED and leaves the order alone; with
  the own mail tool such a run ends in failure, unless the order was approved before.
- The agent's report agrees with the order except in one case: the draft step hands back an order
  that is already approved and the run has neither auto-approval nor a callback.
- `transition_po_status` can approve an order without an approver and move it to email_sent without
  a send time. Such an order never times out, whatever is called afterwards.
- The documented backoff min(initial * 2^k, max) holds for every k exactly when initial <= max.
- The pipeline can order a SKU twice once processing a flag has failed after its draft was committed.
  A draft keeps one open order per SKU exactly when the SKU has no open order or the very order asked
  for is still active; the flag processor checks only the second.
- Alert events can be created closer together than the cooldown: exactly when a breach comes while the
  newest event is resolved and still within the cooldown, which `_evaluate_rule` does not look at.
- The guard against a second supplier mail never fires. An order gets two mails exactly when the email
  tool runs for an order already mailed.
- A request can be sent more than twice: exactly when a refresh succeeds while a request sent twice
  before is refreshing or waiting. While refreshed tokens are not empty, that takes a token written
  from outside in between.
- The dashboard and the decision agent can disagree on a SKU whose lead time reaches past 30 days:
  for some stock exactly when the agent's demand exceeds the dashboard's rounded up.
- `confirm_scan` is two transactions. Stock and confirmed scans agree exactly when no booking was left
  without its scan being stored; such a scan can be booked again.
- A rejected scan can be rejected again, which changes its rejection time and nothing else.

## Model

| member | source | states |
|---|---|---|
| Purchasing.LastActive | smartstock-backend/apps/purchasing/services.py:53-70 | the newest active order for a key, or none when there is none |
| Purchasing.Expire | smartstock-backend/apps/purchasing/timeout_tasks.py:30-48 | every stale row that can be saved is overwritten, every other row kept, in place |
| Purchasing.PurchasingService.DraftPo | smartstock-backend/apps/purchasing/services.py:46-95 | returns the newest active order for (sku, supplier, quantity) and writes nothing, or appends one draft and returns its key; a refused row changes nothing |
| Purchasing.PurchasingService.ApprovePo | smartstock-backend/apps/purchasing/services.py:98-116 | only from draft or pending_approval; records the approver and queues at most one supplier mail; any other status raises and changes nothing |
| Purchasing.PurchasingService.DispatchSupplierEmail | smartstock-backend/apps/purchasing/services.py:118-157 | queues the approval mail exactly when the order carries no message id and the mail is deliverable |
| Purchasing.PurchasingService.RejectPo | smartstock-backend/apps/purchasing/services.py:159-168 | only from draft or pending_approval, otherwise an error and no change |
| Purchasing.PurchasingService.SendPo | smartstock-backend/apps/purchasing/services.py:171-181 | only from approved; stamps the send time |
| Purchasing.PurchasingService.MarkEmailSent | smartstock-backend/apps/purchasing/services.py:183-195 | from approved or sent; stamps the send time and overwrites the message id only with a non-empty one |
| Purchasing.PurchasingService.MarkWaiting | smartstock-backend/apps/purchasing/services.py:197-203 | only from email_sent |
| Purchasing.PurchasingService.MarkConfirmed | smartstock-backend/apps/purchasing/services.py:205-217 | only from waiting_confirmation; stamps the confirmation time |
| Purchasing.PurchasingService.MarkFailed | smartstock-backend/apps/purchasing/services.py:219-229 | from every status, as the code has no guard; keeps the notes when the error text is empty |
| Purchasing.PurchasingService.MarkTimeout | smartstock-backend/apps/purchasing/services.py:231-235 | from every status, as the code has no guard |
| Purchasing.PurchasingService.TransitionPoStatus | smartstock-backend/apps/purchasing/services.py:285-300 | moves along the legal table only; stamps the confirmation time on confirmed |
| Purchasing.PurchasingService.RunEmailTool | smartstock-backend/ai/agents/tools/email_send.py:20-68 | queues a mail only for an order in approved or sent; otherwise fails and changes nothing |
| Purchasing.Report | smartstock-backend/apps/purchasing/timeout_tasks.py:38-62 | the keys a sweep reports: exactly the stale rows whose save succeeds, newest first |
| Purchasing.PurchasingService.CheckSupplierTimeouts | smartstock-backend/apps/purchasing/timeout_tasks.py:18-79 | overwrites exactly the stale rows whose save succeeds, each with the text of the source, skips the others, and reports exactly the overwritten keys |
| Purchasing.PurchasingService.ExpireOrder | smartstock-backend/apps/purchasing/timeout_tasks.py:40-62 | one row of the sweep: saved and reported, or skipped |
| PurchasingRuns.RowKeepsKey | smartstock-backend/apps/purchasing/services.py:41-300 | no call removes a row or changes its sku, supplier or quantity, and the status moves only along the table, sent to email_sent, or into failed or timeout |
| PurchasingRuns.StatusMovesExactly | smartstock-backend/apps/purchasing/services.py:26-38 | those status edges are exactly the ones some call can make on some database (both directions) |
| PurchasingRuns.GuardsAgainstTable | smartstock-backend/apps/purchasing/services.py:98-235 | the guards written into the dedicated calls agree with the legal table except, exactly, on email_sent from sent, confirmed from sent, and the two unguarded calls |
| PurchasingRuns.DedicatedCallTouchesOneOrder | smartstock-backend/apps/purchasing/services.py:98-235 | a dedicated call that succeeds puts its order in the status it is named for and leaves every other row as it was |
| PurchasingRuns.ConfirmedIsNotFinal | smartstock-backend/apps/purchasing/services.py:219-229 | witness: a confirmed order can still be failed |
| PurchasingRuns.TerminalChangesExactly | smartstock-backend/apps/purchasing/services.py:219-235 | the status of an order the legal table gives no way out of changes if and only if the call is mark_failed on it and it is not failed yet, or mark_timeout on it and it is not timed out yet |
| PurchasingRuns.ClosedStaysClosed | smartstock-backend/apps/purchasing/repositories.py:36-49 | no call brings a closed order back to an open status, nor an inactive one back to an active status |
| PurchasingRuns.RowsAddedOnlyByDraft | smartstock-backend/apps/purchasing/services.py:46-95 | only a drafting call that finds no active order for the key adds a row, and that row is a draft |
| PurchasingRuns.OneActiveStep | smartstock-backend/apps/purchasing/services.py:46-95 | every call keeps "at most one active order per (sku, supplier, quantity)" |
| PurchasingRuns.OneActiveAlways | smartstock-backend/apps/purchasing/services.py:46-95 | it holds after every call of every run |
| PurchasingRuns.UniqueConstraintNeverViolated | smartstock-backend/apps/purchasing/models.py:60-66 | in every run the partial unique constraint holds after every call, so no status update can violate it |
| PurchasingRuns.RedraftReturnsTheActiveOrder | smartstock-backend/apps/purchasing/services.py:62-78 | re-drafting a key whose order is active returns that same order and writes nothing |
| PurchasingRuns.StepIntoApproved | smartstock-backend/apps/purchasing/services.py:98-116 | only an approving call moves an order into approved |
| PurchasingRuns.SuppliedOnlyAfterApproved | smartstock-backend/apps/purchasing/services.py:97-217 | in every run an order in sent, email_sent, waiting_confirmation or confirmed was in approved at an earlier point |
| PurchasingRuns.ApprovedOnlyByApproval | smartstock-backend/apps/purchasing/services.py:98-116 | and it got there by one of the two approving calls |
| PurchasingRuns.StampsRecordedExactly | smartstock-backend/apps/purchasing/services.py:98-217 | in every run an order names an approver, a send time or a confirmation time if and only if some call approved it for a user, sent it or confirmed it |
| PurchasingRuns.ConfirmedIsStamped | smartstock-backend/apps/purchasing/services.py:205-217 | in every run a confirmed order names its confirmation time |
| PurchasingRuns.ApprovalWithoutUser | smartstock-backend/apps/purchasing/services.py:26-28 | witness: the legal table lets a draft become approved with no approver |
| PurchasingRuns.DispatchOnlyWhenApproved | smartstock-backend/ai/agents/tools/email_send.py:25-50 | a call adds at most one mail, for an order it finds in approved or sent, or has just approved |
| PurchasingRuns.MailOnlyAfterApproved | smartstock-backend/ai/agents/tools/email_send.py:25-50 | in every run each mail belongs to an order that was in approved by then |
| PurchasingRuns.DuplicateMailGuardNeverFires | smartstock-backend/apps/purchasing/services.py:118-128 | in every run an order before email_sent carries no message id, so the duplicate-mail guard of the approval never fires |
| PurchasingRuns.MailsCountedExactly | smartstock-backend/apps/purchasing/services.py:118-157 | in every run an order has exactly one mail for each approval asked to send one and each successful run of the email tool |
| PurchasingRuns.ApprovalMailsAtMostOnce | smartstock-backend/apps/purchasing/services.py:98-116 | at most one of them comes from an approval |
| PurchasingRuns.OneMailExactly | smartstock-backend/ai/agents/tools/email_send.py:20-68 | in every run an order has at most one mail if and only if the email tool never ran for an order already mailed |
| PurchasingRuns.TwoMails | smartstock-backend/ai/agents/tools/email_send.py:20-68 | witness: an approval with a mail, then the email tool, and the supplier gets two |
| PurchasingRuns.ExpiresEventuallyIff | smartstock-backend/apps/purchasing/timeout_tasks.py:30-36 | an awaiting order is eventually selected by the timeout task if and only if send_po or mark_email_sent succeeded on it |
| PurchasingRuns.TableMoveHasNoSendTime | smartstock-backend/apps/purchasing/services.py:285-300 | an approved order moved to email_sent through the table has no send time |
| PurchasingRuns.TableMoveNeverExpires | smartstock-backend/apps/purchasing/services.py:285-300 | and from then on, after any further calls in any order, no timeout check touches it |
| PurchasingRuns.TableExactly | smartstock-backend/apps/purchasing/services.py:25-38 | the legal table, edge by edge |
| PurchasingRuns.StatusClasses | smartstock-backend/apps/purchasing/repositories.py:36-49 | which statuses count as active, as open, and as offered to the supplier |
| PurchasingRuns.DraftIsAsAsked | smartstock-backend/apps/purchasing/services.py:80-95 | a drafting call that adds a row adds exactly one, a draft with the SKU, supplier and quantity asked for and every other field empty |
| PurchasingRuns.FieldsWritten | smartstock-backend/apps/purchasing/services.py:98-235 | each field of an order is written by the calls named for it and by no other, with the value given |
| PurchasingRuns.ToolMailWritten | smartstock-backend/ai/agents/tools/email_send.py:25-68 | the email tool hands over one mail, for its order and under its id, and touches no order |
| PurchasingRuns.ApprovalMailExactly | smartstock-backend/apps/purchasing/services.py:98-157 | an approval queues one mail, under po-N-approved, if and only if it is asked to, the mail can be handed over and the order carries no message id |
| PurchasingRuns.ErrorExactly | smartstock-backend/apps/purchasing/services.py:98-300 | which of the four errors a refused call raises |
| PurchasingRuns.SweepExactly | smartstock-backend/apps/purchasing/timeout_tasks.py:30-62 | an order is timed out, with the note of the source added to its notes, and reported if and only if it waits for its supplier, was sent 48 hours or more before, and can be saved; otherwise it stays as it is |
| PurchasingRuns.ApproverIsTheUser | smartstock-backend/apps/purchasing/services.py:98-116 | in every run an order names the user of its latest approval that was given one, and no other call changes that |
| PurchasingAgents.WorkflowService.CreateWorkflow | smartstock-backend/apps/purchasing/workflow_services.py:15-24 | keeps an existing workflow, otherwise adds a draft one |
| PurchasingAgents.WorkflowService.UpdateStatus | smartstock-backend/apps/purchasing/workflow_services.py:32-47 | sets the status, the message id and error only when given, and the poll time on waiting_confirmation |
| PurchasingAgents.WorkflowService.IncrementPollingAttempt | smartstock-backend/apps/purchasing/workflow_services.py:49-57 | adds one to that workflow's counter, stamps its poll time and changes nothing else |
| PurchasingAgents.WorkflowService.MarkConfirmed | smartstock-backend/apps/purchasing/workflow_services.py:59-65 | sets that workflow to confirmed and changes nothing else |
| PurchasingAgents.PurchasingAgent.ExecuteWorkflow | smartstock-backend/ai/agents/purchasing_agent.py:126-179 | one whole run does to orders, workflows and sleeps what `Execute` says, for every oracle |
| PurchasingAgents.PurchasingAgent.Submit | smartstock-backend/ai/agents/purchasing_agent.py:153-165 | creates the workflow record and moves a new draft to pending_approval |
| PurchasingAgents.PurchasingAgent.HandleApprovalGate | smartstock-backend/ai/agents/purchasing_agent.py:181-235 | decides from auto_approve, the production setting and the callback, in the source's order, and leaves the state its specification gives |
| PurchasingAgents.PurchasingAgent.Approve | smartstock-backend/ai/agents/purchasing_agent.py:197-200 | approves for a given user, without asking for a mail; without one only the workflow moves |
| PurchasingAgents.PurchasingAgent.SendEmailStep | smartstock-backend/ai/agents/purchasing_agent.py:237-274 | a failed mail fails order and workflow; a queued one takes both to waiting_confirmation or raises |
| PurchasingAgents.PurchasingAgent.PollForConfirmation | smartstock-backend/ai/agents/purchasing_agent.py:276-341 | the polling loop equals its recursive specification for every sequence of answers |
| PurchasingAgents.PurchasingAgent.PollOnce | smartstock-backend/ai/agents/purchasing_agent.py:288-327 | one poll: counted, slept, asked, acted on |
| PurchasingAgents.PurchasingAgent.HandleAnswer | smartstock-backend/ai/agents/purchasing_agent.py:299-327 | confirms, fails or goes on, raising when the order cannot be confirmed |
| PurchasingAgents.PollAgrees | smartstock-backend/ai/agents/purchasing_agent.py:276-341 | whenever polling returns, order, workflow and report carry the same status |
| PurchasingAgents.AfterDraftAgrees | smartstock-backend/ai/agents/purchasing_agent.py:149-179 | the same from the approval gate on, with its one exception |
| PurchasingAgents.ReportAgreesExactly | smartstock-backend/ai/agents/purchasing_agent.py:126-179 | whatever the oracles answer, a run that returns past the draft leaves order, workflow and report in one status if and only if the draft step did not hand back an approved order with nobody to ask |
| PurchasingAgents.ReportCanDisagree | smartstock-backend/ai/agents/purchasing_agent.py:188-200 | witness of the exception: the report says pending_approval, the order is approved |
| PurchasingAgents.OwnConfirmationIsRefused | smartstock-backend/ai/agents/tools/confirmation_listener.py:20-29 | whenever the repository's own listener reports confirmed, mark_confirmed refuses the order |
| PurchasingAgents.OwnListenerTimesOut | smartstock-backend/ai/agents/tools/confirmation_listener.py:16-41 | with that listener and no other writer, polling always ends in timeout after max_attempts |
| PurchasingAgents.GateOutcome | smartstock-backend/ai/agents/purchasing_agent.py:181-235 | the run goes on with an approved order exactly when the gate approves and exactly one of the two holds: a user is given, or the order was approved before |
| PurchasingAgents.OwnToolsOutcome | smartstock-backend/ai/agents/purchasing_agent.py:126-341 | how every run with the repository's own tools ends, case by case, for a new order and for one the duplicate check handed back |
| PurchasingAgents.OwnListenerNeverConfirms | smartstock-backend/ai/agents/tools/confirmation_listener.py:20-29 | with the own listener and no other writer during the run, no run on any desk, with any context and any mail tool, reports a confirmation |
| PurchasingAgents.PollConfirmsExactly | smartstock-backend/ai/agents/purchasing_agent.py:286-311 | polling a waiting order confirms at poll k if and only if k is within the attempts and an injected listener waits before k and confirms at k |
| PurchasingAgents.ConfirmedExactly | smartstock-backend/ai/agents/purchasing_agent.py:126-341 | a run ends confirmed at poll k if and only if the order is drafted, the gate approves, a user is given exactly when the order was not approved before, the mail is queued, and an injected listener confirms first at k within the attempts |
| PurchasingAgents.OwnMailOutcome | smartstock-backend/ai/agents/tools/email_send.py:20-68 | the own mail tool lets the run go on exactly when the order is approved or sent and the queue is up |
| PurchasingAgents.PollAccounting | smartstock-backend/ai/agents/purchasing_agent.py:276-341 | sleeps made equal the increase of the workflow counter and the reported attempts, never exceed max_attempts, and the k-th sleep is the k-th delay |
| PurchasingAgents.DelayClosedForm | smartstock-backend/ai/agents/purchasing_agent.py:276-341 | the k-th delay is min(initial * 2^k, max) for k > 0; the first ignores the cap |
| PurchasingAgents.CappedEverywhereIff | smartstock-backend/ai/agents/purchasing_agent.py:40-42 | every delay is min(initial * 2^k, max) if and only if initial <= max |
| PurchasingAgents.ScheduleWithinBounds | smartstock-backend/ai/agents/purchasing_agent.py:276-341 | n delays add up to at most n * max and at most initial * (2^n - 1) |
| PurchasingAgents.PollSleepBounded | smartstock-backend/ai/agents/purchasing_agent.py:276-341 | both bounds hold for the sleeps of any run, however it ends |
| PurchasingAgents.GateExactly | smartstock-backend/ai/agents/purchasing_agent.py:181-206 | the gate approves if and only if auto_approve is set outside production or the callback says yes, and asks nobody if and only if neither decides |
| PurchasingAgents.ListensExactly | smartstock-backend/ai/agents/tools/confirmation_listener.py:16-41 | the own listener answers confirmed for a confirmed order and terminal for one that was rejected, cancelled, failed or timed out, and waits otherwise |
| PurchasingAgents.GateSendsNothing | smartstock-backend/ai/agents/purchasing_agent.py:196-226 | the gate adds nothing to the outbox; an order it approves for a user names that user, and otherwise the approver stays |
| PurchasingAgents.RunMailsExactly | smartstock-backend/ai/agents/purchasing_agent.py:126-274 | a whole run adds one mail, for its own order and under the tool's id, if and only if it comes to the mail step with an approved order and the own tool finds the queue up; otherwise it adds none |
| PurchasingAgents.WorkflowStartsBlank | smartstock-backend/apps/purchasing/workflow_services.py:15-24 | a new order's workflow starts as a blank draft; one that exists is kept |
| PurchasingAgents.WorkflowFollowsGate | smartstock-backend/ai/agents/purchasing_agent.py:181-235 | the gate leaves the workflow approved when the run goes on, in the reported status when it stops, and pending when the approval raises; nothing else of it changes |
| PurchasingAgents.PollIsStamped | smartstock-backend/apps/purchasing/workflow_services.py:49-57 | once a poll was made the workflow carries its time |
| PurchasingAgents.MailIsRecorded | smartstock-backend/ai/agents/purchasing_agent.py:237-274 | past the mail step the order carries the send time and the message id that was given, the workflow the same id; a failed mail leaves its error on both |
| PurchasingAgents.OwnAnswerExactly | smartstock-backend/ai/agents/tools/email_send.py:25-68 | the own mail tool answers with its mail id if and only if the queue is up and the order is approved or sent |
| AgentRuns.AgentIsARunOfCalls | smartstock-backend/ai/agents/purchasing_agent.py:126-341 | an agent run changes the order tables only by a sequence of service calls |
| AgentRuns.AgentExtendsRun | smartstock-backend/ai/agents/purchasing_agent.py:126-341 | an agent run that starts where a run of calls ended leads where a longer run of calls ends, so every theorem about runs of calls applies |
| AgentRuns.AgentSuppliesOnlyApproved | smartstock-backend/ai/agents/purchasing_agent.py:126-341 | after an agent run, whatever its oracles answered, every order beyond approval was in approved at an earlier point |
| AgentRuns.AgentKeepsOneActive | smartstock-backend/ai/agents/purchasing_agent.py:126-341 | and the unique constraint holds |
| AgentRuns.OwnConfirmationStaysRefused | smartstock-backend/ai/agents/tools/confirmation_listener.py:20-29 | once the own listener has answered confirmed, mark_confirmed is refused after any service calls by others in between |
| ReorderPipeline.LastOpen | smartstock-backend/apps/forecasting/repositories.py:80-86 | an open flag of the SKU, or none when there is none |
| ReorderPipeline.CreatableFlags | smartstock-backend/apps/forecasting/pipeline_orchestrator.py:139-146 | exactly the open flags that require a reorder and saw no open order, each once |
| ReorderPipeline.DraftAppends | smartstock-backend/apps/purchasing/services.py:46-95 | a draft for a SKU with no open order appends a new one |
| ReorderPipeline.POFromFlagCreator.UpsertOpenReorderFlag | smartstock-backend/apps/forecasting/repositories.py:80-86 | updates the one open flag of the SKU or creates one if there is none, as requiring a reorder with no open order seen; raises and changes nothing if there are several |
| ReorderPipeline.POFromFlagCreator.ProcessSingleFlag | smartstock-backend/ai/agents/po_from_flag_creator.py:59-174 | consumes the flag only after an agent run that returned and did not fail; a failure after the draft is caught at each stage it can happen |
| ReorderPipeline.POFromFlagCreator.RunInterrupted | smartstock-backend/ai/agents/po_from_flag_creator.py:129-174 | an agent run cut short after the draft, after the workflow record, after the submission, or only before the flag is saved |
| ReorderPipeline.POFromFlagCreator.ProcessFlags | smartstock-backend/ai/agents/po_from_flag_creator.py:39-57 | the loop and its counters equal the fold over single flags |
| ReorderPipeline.DecideKeepsInv | smartstock-backend/ai/agents/decision_agent.py:223-257 | raising a flag from an earlier "no open order" observation keeps the promise |
| ReorderPipeline.OtherKeepsInv | smartstock-backend/apps/purchasing/services.py:97-300 | so does every service call other than drafting, at any point of a pipeline run |
| ReorderPipeline.AgentAppends | smartstock-backend/ai/agents/po_from_flag_creator.py:129-139 | the agent, called without a callback, leaves a new order in pending_approval and never reaches its tools |
| ReorderPipeline.ProcessFlagEffect | smartstock-backend/ai/agents/po_from_flag_creator.py:59-174 | processing a flag appends one open order for its SKU or changes no order, and consumes the flag exactly when it completes |
| ReorderPipeline.FlagKeepsSafeIff | smartstock-backend/ai/agents/po_from_flag_creator.py:129-174 | from a state that keeps the whole promise, processing an open flag keeps it if and only if it does not fail after the draft is committed |
| ReorderPipeline.FlagKeepsOneOrderExactly | smartstock-backend/ai/agents/po_from_flag_creator.py:129-174 | from any state with one open order per SKU, however reached, processing a flag keeps it so if and only if no draft is made, the SKU has no open order, or the very order asked for is still active |
| ReorderPipeline.StepKeepsOneOrderExactly | smartstock-backend/apps/forecasting/pipeline_orchestrator.py:114-146 | the same for every step of the pipeline protocol |
| ReorderPipeline.OrdersOnceExactly | smartstock-backend/apps/forecasting/pipeline_orchestrator.py:20-60 | over every interleaving, late failures included: no SKU ever has two open orders if and only if every draft of the run passed that check |
| ReorderPipeline.StepKeepsInv | smartstock-backend/apps/forecasting/pipeline_orchestrator.py:114-146 | every step of the pipeline protocol keeps the invariant |
| ReorderPipeline.PipelineIsSafe | smartstock-backend/apps/forecasting/pipeline_orchestrator.py:20-60 | over every interleaving: no SKU has two open flags, two open orders, or an open flag with an open order, as long as no flag fails late |
| ReorderPipeline.StepKeepsSafeExactly | smartstock-backend/apps/forecasting/pipeline_orchestrator.py:114-146 | one step keeps the whole promise if and only if it does not fail late, and then keeps the invariant too |
| ReorderPipeline.PipelineIsSafeExactly | smartstock-backend/apps/forecasting/pipeline_orchestrator.py:20-60 | over every interleaving the whole promise holds at every moment if and only if no flag of the run fails late |
| ReorderPipeline.LateFailureLeavesBoth | smartstock-backend/ai/agents/po_from_flag_creator.py:172-174 | witness: a late failure leaves an open flag next to an open order |
| ReorderPipeline.LateFailureDoubleOrders | smartstock-backend/ai/agents/po_from_flag_creator.py:172-174 | witness continued: the next run drafts a second order for the SKU |
| ReorderPipeline.BatchAccounting | smartstock-backend/ai/agents/po_from_flag_creator.py:39-57 | over a batch every flag is tallied once and for what happened to it, created orders are exactly the new rows, exactly the completed flags are consumed, and the promise holds |
| ReorderPipeline.QueueExactly | smartstock-backend/apps/forecasting/pipeline_orchestrator.py:139-146 | the creation step takes exactly the open flags that require a reorder and saw no open order, and changes nothing else |
| ReorderPipeline.DecidedReorderIsRaised | smartstock-backend/ai/agents/decision_agent.py:223-257 | a reorder decided from an observed `no open order` leaves the SKU with an open flag that requires a reorder and saw no open order, whatever flags there were; no flag of another SKU changes |
| ReorderPipeline.NothingElseIsRaised | smartstock-backend/ai/agents/decision_agent.py:223-257 | without the formula, without an observation, or with an open order observed, nothing is raised |
| ReorderPipeline.DecidedReorderIsQueued | smartstock-backend/apps/forecasting/pipeline_orchestrator.py:114-146 | the creation step then queues that flag |
| ReorderPipeline.ObservedReorderIsQueued | smartstock-backend/ai/agents/decision_agent.py:212-257 | from the observation on: a SKU with no order in an open status whose formula requires a reorder ends up in the queue |
| ReorderPipeline.QueuedReorderIsOrdered | smartstock-backend/ai/agents/po_from_flag_creator.py:59-174 | processing a queued flag to the end appends exactly one order, for its SKU, with the supplier and quantity asked for, waiting for approval, with no mail; every other order and flag stays |
| ReorderPipeline.FlagVerdict | smartstock-backend/ai/agents/po_from_flag_creator.py:59-174 | how each outcome is tallied and what becomes of the flag, from any state |
| ReorderPipeline.BatchOpensExactly | smartstock-backend/ai/agents/po_from_flag_creator.py:39-57 | after a batch, for every SKU: it has an open order if and only if it had one before or one of its flags was processed to the end |
| ReorderPipeline.DecidedReorderIsOrderedIff | smartstock-backend/apps/forecasting/pipeline_orchestrator.py:114-146 | from the decision to the order: the flag is in the queue of the creation step, and the step leaves an open order for the SKU if and only if that flag is processed to the end |
| CircuitBreaker.ProviderHealth.RecordSuccess | smartstock-backend/ai/llm/llm_provider_manager.py:52-62 | clears the streak and the circuit, appends to the ten-entry window and recomputes its mean |
| CircuitBreaker.ProviderHealth.RecordFailure | smartstock-backend/ai/llm/llm_provider_manager.py:64-79 | counts the failure and opens the circuit for 60 s from the third in a row |
| CircuitBreaker.ProviderHealth.IsAvailable | smartstock-backend/ai/llm/llm_provider_manager.py:81-88 | answers, and half-opens a circuit whose timeout has passed |
| CircuitBreaker.ProviderHealth.Score | smartstock-backend/ai/llm/llm_provider_manager.py:96-101 | the score of an available provider, with the half-opening side effect; infinity otherwise |
| CircuitBreaker.ProviderHealth.ResetBreaker | smartstock-backend/ai/llm/llm_provider_manager.py:382-389 | clears streak and circuit and keeps the totals |
| CircuitBreaker.BookkeepingEqualsHistory | smartstock-backend/ai/llm/llm_provider_manager.py:52-79 | in every reachable state the streak is the failures since the last success or reset, the totals are the counts, the two times those of the last success and failure, the window is the last ten latencies and the average their mean |
| CircuitBreaker.StatusEqualsHistory | smartstock-backend/ai/llm/llm_provider_manager.py:52-88 | HEALTHY holds exactly when the streak is 0, and an open-until time is set exactly when it is at least 3, 60 s after the last failure |
| CircuitBreaker.HalfOpenOnlyAfterTimeout | smartstock-backend/ai/llm/llm_provider_manager.py:81-88 | a provider at the threshold is not CIRCUIT_OPEN only once its timeout has passed |
| CircuitBreaker.AvailableExactly | smartstock-backend/ai/llm/llm_provider_manager.py:81-88 | after any history and at any later time a provider is available if and only if its streak is below 3 or more than 60 s have passed since its last failure |
| CircuitBreaker.RecordedFailureTime | smartstock-backend/ai/llm/llm_provider_manager.py:64-72 | the recorded failure time is never later than the reading the timeout starts from |
| CircuitBreaker.NeverAvailableWithinTimeout | smartstock-backend/ai/llm/llm_provider_manager.py:64-88 | so with three or more failures in a row it is never available within 60 s of the recorded time |
| CircuitBreaker.ScoreExactly | smartstock-backend/ai/llm/llm_provider_manager.py:90-101 | the score of every reachable record, from its history: mean of the last ten latencies in seconds plus ten times the share of failed calls (0 for a provider never called) |
| CircuitBreaker.WorseScoresHigher | smartstock-backend/ai/llm/llm_provider_manager.py:96-101 | a provider that was at least as slow and failed at least as often, and was worse in one of the two, has the higher score |
| Failover.LLMProviderManager.GetAvailableProviders | smartstock-backend/ai/llm/llm_provider_manager.py:264-279 | the list is the score-sorted list of usable providers of PROVIDER_PRIORITY, and each record changes only by its availability check |
| Failover.LLMProviderManager.RankProviders | smartstock-backend/ai/llm/llm_provider_manager.py:268-279 | the same for any priority list without repetitions |
| Failover.LLMProviderManager.ReadScores | smartstock-backend/ai/llm/llm_provider_manager.py:278 | the sort keys are the scores, and reading them changes no record |
| Failover.PriorityIsDistinct | smartstock-backend/ai/llm/llm_provider_manager.py:239 | the priority list has no repetitions |
| Failover.ListIsDistinct | smartstock-backend/ai/llm/llm_provider_manager.py:264-279 | no provider is listed twice |
| Failover.SelectedCallAccounting | smartstock-backend/ai/llm/llm_provider_manager.py:156-185 | a whole selection and call: every provider tried is charged its own answer once, field by field, on top of its availability check, every other listed provider nothing |
| Failover.LLMProviderManager.CollectAvailable | smartstock-backend/ai/llm/llm_provider_manager.py:268-277 | the usable providers in priority order |
| Failover.LLMProviderManager.Generate | smartstock-backend/ai/llm/llm_provider_manager.py:156-185 | the loop gives the verdict and the records of its specification, for all answers |
| Failover.LLMProviderManager.RecordSuccess | smartstock-backend/ai/llm/llm_provider_manager.py:357-360 | records with that provider only; an unknown name is ignored |
| Failover.LLMProviderManager.RecordFailure | smartstock-backend/ai/llm/llm_provider_manager.py:362-365 | records with that provider only; an unknown name is ignored |
| Failover.UsableStaysUsable | smartstock-backend/ai/llm/llm_provider_manager.py:272-278 | a provider found usable keeps its score and cannot be closed by the later reading of the score |
| Failover.RankingIsStable | smartstock-backend/ai/llm/llm_provider_manager.py:264-279 | the list is a stable, score-sorted permutation of the usable providers in priority order |
| Failover.RankedExactlyByHistory | smartstock-backend/ai/llm/llm_provider_manager.py:264-279 | a provider is listed if and only if it is in the priority list, has a key and a record, and its history has fewer than three failures in a row or its last one is over 60 s old |
| Failover.LLMProviderManager.AskProvider | smartstock-backend/ai/llm/llm_provider_manager.py:270-273 | an unknown provider is not asked |
| Failover.LLMProviderManager.ScoreProvider | smartstock-backend/ai/llm/llm_provider_manager.py:278 | reading a score changes the record only by its availability check |
| Failover.Leading | smartstock-backend/ai/llm/llm_provider_manager.py:164-184 | the loop goes on exactly over the leading transient failures |
| Failover.VerdictExactly | smartstock-backend/ai/llm/llm_provider_manager.py:164-185 | the winner is the first provider that does not fail, every earlier one having failed transiently; likewise for a raised error and for exhaustion (each an equivalence) |
| Failover.FailoverAccounting | smartstock-backend/ai/llm/llm_provider_manager.py:164-185 | every tried provider is charged its own answer once, field by field (a success only for the winner), and no other record changes |
| Failover.FreshProvidersInPriorityOrder | smartstock-backend/ai/llm/llm_provider_manager.py:239-279 | unused providers are listed groq, openai, gemini, xai |
| Failover.WorseIsListedLater | smartstock-backend/ai/llm/llm_provider_manager.py:264-279 | of two listed providers the one that was slower and failed more often comes later |
| TokenRefresh.Interceptor.Send | smartstock-frontend/src/lib/axios.ts:67-77 | a new request goes out once, with the stored token unless exempt |
| TokenRefresh.Interceptor.HandleResponse | smartstock-frontend/src/lib/axios.ts:109-146 | a response delivers or rejects the request, queues it, or starts the refresh |
| TokenRefresh.Interceptor.ProcessQueue | smartstock-frontend/src/lib/axios.ts:54-63 | every queued callback is resolved with a token or rejected without one, and the queue is emptied |
| TokenRefresh.Interceptor.HandleRefreshed | smartstock-frontend/src/lib/axios.ts:150-166 | a granted refresh as one step |
| TokenRefresh.Interceptor.HandleRefreshFailed | smartstock-frontend/src/lib/axios.ts:159-166 | a refused refresh as one step |
| TokenRefresh.Interceptor.ResendWith | smartstock-frontend/src/lib/axios.ts:131-134 | one more send of that request, with that token |
| TokenRefresh.Interceptor.GrantToken | smartstock-frontend/src/lib/axios.ts:150-155 | the new token is remembered and stored |
| TokenRefresh.ReleaseResends | smartstock-frontend/src/lib/axios.ts:54-63 | releasing with a token resends each queued request once, with that token |
| TokenRefresh.ReleaseRejects | smartstock-frontend/src/lib/axios.ts:54-63 | releasing without one rejects each |
| TokenRefresh.RefreshReleasesQueue | smartstock-frontend/src/lib/axios.ts:143-166 | a settled refresh releases every queued request exactly once, resends or rejects the refreshing one, and touches no other request |
| TokenRefresh.NextKeepsInv | smartstock-frontend/src/lib/axios.ts:109-166 | every event keeps single flight and "each request in exactly one place" |
| TokenRefresh.SingleFlightNothingLost | smartstock-frontend/src/lib/axios.ts:47-63 | in every run: at most one refresh, an empty queue whenever none runs, each issued request in exactly one of in-flight, queued, refreshing, settled, and no more refresh calls than requests |
| TokenRefresh.AtMostTwoSendsOneRefresh | smartstock-frontend/src/lib/axios.ts:117-158 | between outside token writes every request is sent at most twice and at most one refresh succeeds, in every order of responses |
| TokenRefresh.AtMostTwiceStep | smartstock-frontend/src/lib/axios.ts:128-158 | one event keeps every request at two sends if and only if it is not a successful refresh that resends a request sent twice before |
| TokenRefresh.AtMostTwiceExactly | smartstock-frontend/src/lib/axios.ts:47-166 | from a fresh client, in every run, no request is ever sent more than twice if and only if no refresh of the run was such a one |
| TokenRefresh.ReachesBothResent | smartstock-frontend/src/lib/axios.ts:128-158 | witness: two failing requests, one refresh, both resent |
| TokenRefresh.ThirdSendAfterOutsideWrite | smartstock-frontend/src/lib/axios.ts:128-158 | witness continued: a token written from outside, and the second request goes out a third time |
| TokenRefresh.EventUsesWork | smartstock-frontend/src/lib/axios.ts:109-166 | every response or refresh result uses up work; a new request brings at most 4 |
| TokenRefresh.FreshClient | smartstock-frontend/src/lib/axios.ts:47-166 | from a fresh client, in every run, outside token writes and empty tokens included: single flight, nothing lost, and no request sent more often than 1 + the refreshes that succeeded, at most 1 + the number of requests |
| TokenRefresh.EveryRequestTerminates | smartstock-frontend/src/lib/axios.ts:109-166 | in every such run a request takes part in at most 2 + the number of successful refreshes responses and refresh results, so the protocol terminates |
| TokenRefresh.RetryTerminates | smartstock-frontend/src/lib/axios.ts:109-166 | the sharper bound between outside writes: at most 4 responses and refresh results per request |
| TokenRefresh.SettledAsAnswered | smartstock-frontend/src/lib/axios.ts:107-169 | a settled request keeps its answer; one that settles is delivered if and only if the event is its successful response, and rejected otherwise |
| TokenRefresh.DeliveredExactly | smartstock-frontend/src/lib/axios.ts:47-169 | in every run from a fresh client a request is delivered if and only if some event of the run was its successful response |
| TokenRefresh.UnauthorizedExactly | smartstock-frontend/src/lib/axios.ts:112-146 | where a 401 puts its request: rejected if it already retried, is exempt or the store holds the token of the last refresh; otherwise queued behind the running refresh, or starting one |
| TokenRefresh.IssuedWithStoredToken | smartstock-frontend/src/lib/axios.ts:67-77 | a new request carries the stored token, or none when exempt, and changes no other |
| TokenRefresh.ResentWithNewToken | smartstock-frontend/src/lib/axios.ts:54-63 | after a granted refresh the refreshing request, and with a real token every queued one, carries the new token; every other carries what it did |
| InvoiceParser.ParseHeader | smartstock-backend/ai/llm/invoice_schema.py:146-154 | the header loop equals its specification, confidences included |
| InvoiceParser.ParseRow | smartstock-backend/ai/llm/invoice_schema.py:163-174 | one row: its cells and its scores |
| InvoiceParser.ParseLineItems | smartstock-backend/ai/llm/invoice_schema.py:156-183 | the row loop: kept items in order and the mean of the row means |
| InvoiceParser.ParseLegacy | smartstock-backend/ai/llm/invoice_schema.py:185-204 | the flat legacy shape |
| InvoiceParser.ParseLegacyFields | smartstock-backend/ai/llm/invoice_schema.py:186-194 | the values and confidences of the legacy fields |
| InvoiceParser.ParseStructured | smartstock-backend/ai/llm/invoice_schema.py:131-133 | header and rows of the structured shape |
| InvoiceParser.FromVisionJson | smartstock-backend/ai/llm/invoice_schema.py:122-144 | the whole parser equals `Parse` for every JSON value |
| InvoiceParser.RowsKeepOrder | smartstock-backend/ai/llm/invoice_schema.py:160-178 | each row contributes on its own and in place: the items of a concatenation are the concatenated items |
| InvoiceParser.NoEmptyLineItem | smartstock-backend/ai/llm/invoice_schema.py:175-178 | no stored line item is empty, whatever the input |
| InvoiceParser.ParseIsNormal | smartstock-backend/ai/llm/invoice_schema.py:51-90 | everything stored is in normal form: each column present, texts trimmed and non-empty, numbers where numbers belong |
| InvoiceParser.DumpParsesBack | smartstock-backend/ai/llm/invoice_schema.py:122-144 | for every JSON value, parsing the dump of the parse gives the same header, line items and confidence map |
| InvoiceParser.SurvivesIffNormal | smartstock-backend/ai/llm/invoice_schema.py:122-144 | an extraction survives dump and parse if and only if it is in normal form |
| InvoiceParser.StructuredIsRead | smartstock-backend/ai/llm/invoice_schema.py:17-96 | every header field and every row is read under the first of its accepted names that is present, wrappers opened, texts trimmed, numbers freed of dollar signs and commas; rows that say nothing are skipped, the others kept in order |
| InvoiceParser.LegacyIsRead | smartstock-backend/ai/llm/invoice_schema.py:185-204 | the five legacy fields give the supplier and one line, under these names, or no line when they say nothing |
| InvoiceParser.HeaderConfidenceIsRead | smartstock-backend/ai/llm/invoice_schema.py:134-154 | a header field's confidence is the one its own cell carries, otherwise whatever the top-level blob has |
| InvoiceParser.LineConfidenceIsMean | smartstock-backend/ai/llm/invoice_schema.py:156-183 | the confidence of the lines is the mean of the row means, or whatever the top-level blob has when no row carries a numeric one |
| InvoiceParser.RowMeanIsRead | smartstock-backend/ai/llm/invoice_schema.py:163-183 | a row's mean is taken over the numeric confidences of its five cells and its own; a skipped row has none |
| InvoiceParser.MeansKeepOrder | smartstock-backend/ai/llm/invoice_schema.py:156-183 | each row contributes its mean on its own and in place |
| InvoiceParser.OtherConfidencesKept | smartstock-backend/ai/llm/invoice_schema.py:136-141 | no other key of the confidence map is touched |
| InvoiceParser.LegacyConfidenceIsRead | smartstock-backend/ai/llm/invoice_schema.py:185-194 | in the legacy shape the five fields may carry their own confidence; every other key is kept |
| Inventory.InventoryService.ApplyConfirmedInvoice | smartstock-backend/apps/inventory/services.py:199-245 | one line: validation, restock or creation, price and supplier update; an error changes nothing |
| Inventory.InventoryService.ApplyConfirmedInvoiceLines | smartstock-backend/apps/inventory/services.py:247-287 | a batch: the final tables and both reports, or an error with every table as before |
| Inventory.InventoryService.ApplyLines | smartstock-backend/apps/inventory/services.py:257-277 | its loop, up to the first fault other than a failed validation |
| Inventory.InventoryService.ApplyNext | smartstock-backend/apps/inventory/services.py:260-277 | one line: applied, collected as failed, or aborting |
| Inventory.InventoryService.ApplyLine | smartstock-backend/apps/inventory/services.py:261-276 | one line applied through the single-line call and reported under its own labels |
| Inventory.InventoryService.AdjustStock | smartstock-backend/apps/inventory/repositories.py:80-91 | refused with no change when the result would fall below the reservation |
| Inventory.AppliedMovesOneCode | smartstock-backend/apps/inventory/services.py:199-245 | a line moves exactly its own code by its quantity and touches no reservation |
| Inventory.ReadQuantityPositive | smartstock-backend/apps/inventory/services.py:337-342 | an accepted quantity is at least 1 |
| Inventory.BatchPartitions | smartstock-backend/apps/inventory/services.py:247-287 | the reported lines are the accepted ones and the failures the rejected ones, both in input order, together all lines |
| Inventory.BatchGrowth | smartstock-backend/apps/inventory/services.py:247-287 | each code grows by exactly the accepted quantities that normalise to it (repeats accumulate), as the receipts also say; reservations stay |
| Inventory.RejectedLinesChangeNothing | smartstock-backend/apps/inventory/services.py:268-274 | the tables (stock, SKUs, products, prices, suppliers) and the receipts of a batch are those of its accepted lines alone |
| Inventory.BatchRaisesExactly | smartstock-backend/apps/inventory/services.py:247-287 | a batch raises if and only if a line fails other than by validation, or there are lines and all are rejected |
| Inventory.LineReadsAsSaid | smartstock-backend/apps/inventory/services.py:247-287 | a line is accepted if and only if its own quantity is at least 1 and its own price can be read; then quantity, price, code, name and supplier are what its own JSON says; it fails validation, rather than crashing, exactly when its quantity is a number below 1 or its price is no decimal or negative |
| Inventory.SingleReadsAsSaid | smartstock-backend/apps/inventory/services.py:199-226 | the same for the single-line keys, the quantity under quantity_received or else under quantity |
| Inventory.QuantityExamples | smartstock-backend/apps/inventory/services.py:337-342 | a whole number is read as itself, a text as int reads it, a positive fraction cut down |
| Inventory.AppliedMovesOneProduct | smartstock-backend/apps/inventory/services.py:226-245 | a given price and supplier replace those of the product, nothing else of it and no other product changes; an unknown code gets a new product with the line's name, supplier and price |
| Inventory.ReceiptsSayStock | smartstock-backend/apps/inventory/services.py:262-276 | the stock in a receipt is what there was plus everything accepted for that code up to its own line |
| Inventory.BatchGrowsAsSaid | smartstock-backend/apps/inventory/services.py:247-287 | a batch moves the stock of each code by exactly the sum of what the JSON of its acceptable lines says, and its receipts say the same |
| Inventory.BatchErrorExactly | smartstock-backend/apps/inventory/services.py:247-287 | the error of a batch is its first fault other than a failed validation, or a failed validation if and only if there are lines and every one of them failed its own |
| Inventory.AdjustRefusedExactly | smartstock-backend/apps/inventory/repositories.py:80-91 | an adjustment is refused for a code without a stock level, or exactly when the result would fall below the reservation |
| InvoiceScan.InvoiceScanService.Scan | smartstock-backend/apps/ingestion/services.py:77-140 | always stores one scan, in the status its extraction leads to, and raises the matching error |
| InvoiceScan.InvoiceScanService.MarkFailed | smartstock-backend/apps/ingestion/services.py:307-316 | status failed, the reason kept, every required field missing |
| InvoiceScan.InvoiceScanService.Confirm | smartstock-backend/apps/ingestion/services.py:142-185 | checks in the source's order, then books, then stores data, result and time; a refused or failed booking leaves everything as it was, a scan that cannot be stored leaves the stock booked |
| InvoiceScan.InvoiceScanService.Book | smartstock-backend/apps/ingestion/services.py:187-203 | validates all lines before any is applied; stock changes only on success |
| InvoiceScan.InvoiceScanService.Reject | smartstock-backend/apps/ingestion/services.py:234-247 | allowed in every status but confirmed; stamps the time each time |
| InvoiceScan.BookedAddsReceipts | smartstock-backend/apps/ingestion/services.py:150-161 | confirming adds to each code exactly what the stored result says |
| InvoiceScan.BookedAddsGiven | smartstock-backend/apps/ingestion/services.py:150-161 | and that is the sum of what the JSON of the lines it was given says for the code |
| InvoiceScan.StepConserves | smartstock-backend/apps/ingestion/services.py:142-247 | one call moves on-hand stock by exactly what it books or adjusts, and the stored results by what it books and stores |
| InvoiceScan.StockIsConserved | smartstock-backend/apps/ingestion/services.py:142-247 | in every run, for every code: stock is the initial amount, plus what the JSON of the lines of every booking says, plus the accepted adjustments |
| InvoiceScan.RecordsAreConserved | smartstock-backend/apps/ingestion/services.py:142-185 | in every run the results stored with confirmed scans, each counted once, add up to the bookings that were stored; the rest of the bookings is lost |
| InvoiceScan.BalancedExactly | smartstock-backend/apps/ingestion/services.py:158-161 | stock equals the initial amount plus what the confirmed scans record plus the accepted adjustments if and only if no call booked some of the code without storing its scan |
| InvoiceScan.StoredBookingIsLast | smartstock-backend/apps/ingestion/services.py:145-161 | in every run a scan is booked again only after bookings that were not stored; a stored booking is the last of its scan |
| InvoiceScan.StepKeepsCover | smartstock-backend/apps/inventory/repositories.py:80-91 | every call keeps reservations covered by stock |
| InvoiceScan.ReservationsStayCovered | smartstock-backend/apps/inventory/repositories.py:80-91 | in every run from covered reservations they stay covered |
| InvoiceScan.AdjustMovesOneCode | smartstock-backend/apps/inventory/repositories.py:80-91 | an accepted adjustment moves one code by its delta, touches no reservation and leaves it covered |
| InvoiceScan.DecidedScansStay | smartstock-backend/apps/ingestion/services.py:142-148 | no call changes a confirmed scan; a rejected scan changes if and only if it is rejected once more at another time, and then in that time alone |
| InvoiceScan.DecisionsAreFinal | smartstock-backend/apps/ingestion/services.py:142-148 | in every run a confirmed scan stays exactly as it is and a rejected one in all but its rejection time, so the two exclude each other |
| InvoiceScan.ExtractedExactly | smartstock-backend/apps/ingestion/services.py:116-140 | an answer that is an object is stored as extracted if and only if the parser found a supplier and a first line with name, code, quantity and price, and as partial otherwise; it reports exactly the fields without a true value |
| InvoiceScan.StoredDataExactly | smartstock-backend/apps/ingestion/services.py:253-279 | the stored data: the header as parsed, the line items, and the first line under the single-line names |
| InvoiceScan.FailedExactly | smartstock-backend/apps/ingestion/services.py:90-114 | every other answer: which error is raised, and that the scan is failed with all five fields missing and the reason kept, or stays pending |
| InvoiceScan.OnlyOwnerBooks | smartstock-backend/apps/ingestion/services.py:142-155 | only the owner of a scan that is not decided yet books it, and only with complete data |
| InvoiceScan.RefusedExactly | smartstock-backend/apps/ingestion/services.py:142-156 | a confirmation is refused for a missing scan, a foreign user, a confirmed scan, a rejected scan or incomplete data, exactly then and with that error, and changes nothing |
| InvoiceScan.RejectionRefusedExactly | smartstock-backend/apps/ingestion/services.py:234-238 | the same for a rejection, which never touches stock |
| InvoiceScan.ScanChanges | smartstock-backend/apps/ingestion/services.py:142-247 | a call changes a scan only when its owner confirms it with complete data or rejects it; field by field, what it becomes |
| InvoiceScan.OnlyOwnerDecides | smartstock-backend/apps/ingestion/services.py:142-247 | in every run a scan stays as it is, and books nothing, as long as its owner does not call |
| HybridSearch.MergeResults | smartstock-backend/ai/rag/retrieval.py:118-134 | the two loops over a keyed dictionary represent the merged list, keys in insertion order |
| HybridSearch.Search | smartstock-backend/ai/rag/retrieval.py:107-137 | the first k of the stable ranking |
| HybridSearch.MergeIsOk | smartstock-backend/ai/rag/retrieval.py:118-134 | the merge holds exactly the union of ids, each chunk from one list unchanged, or from both with the 0.7/0.3 score |
| HybridSearch.SearchIsTopK | smartstock-backend/ai/rag/retrieval.py:107-137 | for result lists without repeated ids: distinct ids, exactly min(k, size of the union), right provenance and scores, best first with stable ties, and nothing omitted scores above anything returned |
| HybridSearch.MergedInOrder | smartstock-backend/ai/rag/retrieval.py:118-134 | the order that decides ties: the dictionary holds the dense results, then the new sparse ones, each in their order |
| Forecast.GroupBySku | smartstock-backend/apps/forecasting/services.py:97-99 | each group is the rows of its SKU in query order |
| Forecast.SkusInOrder | smartstock-backend/apps/forecasting/services.py:102-106 | the SKUs of the rows in the order of their first row, each once |
| Forecast.ListedNext | smartstock-backend/apps/forecasting/services.py:104-106 | the loop's membership and size test lists exactly the first 500 of them |
| Forecast.ComputeDashboard | smartstock-backend/apps/forecasting/services.py:101-116 | the listed SKUs are exactly the first 500 by their first row, in that order, each with its risk |
| Forecast.DashboardSeesPrefix | smartstock-backend/apps/forecasting/services.py:84-99 | what the dashboard sees of a SKU is exactly the part of its upcoming rows within 30 days, a prefix |
| Forecast.WindowsRelated | smartstock-backend/apps/forecasting/repositories.py:44-53 | for the same day and lead time the dashboard window is a prefix of the agent's, and equal if and only if the agent's ends within 30 days |
| Forecast.RiskImpliesReorder | smartstock-backend/ai/agents/decision_agent.py:223-226 | with non-negative predictions a dashboard risk implies that the agent's formula requires a reorder, and the two agree when the window ends within 30 days |
| Forecast.AgreeIff | smartstock-backend/ai/agents/decision_agent.py:223-226 | for one stock the two computations agree if and only if its free quantity does not lie between the demand of the two windows |
| Forecast.AgreeForEveryStockExactly | smartstock-backend/apps/forecasting/services.py:84-114 | for a SKU and a lead time the two agree for every stock if and only if the agent's demand is at most the dashboard's rounded up to a whole unit |
| Forecast.ReorderWithoutRisk | smartstock-backend/apps/forecasting/services.py:84-114 | witness: with a lead time past the horizon the formula can require a reorder the dashboard does not flag |
| Forecast.ListedExactly | smartstock-backend/apps/forecasting/services.py:101-106 | at most 500 SKUs are listed, and before that none is left out |
| Forecast.FirstRowsInOrder | smartstock-backend/apps/forecasting/services.py:101-106 | a SKU listed before another has its first row before the other's |
| Forecast.DemandConcat | smartstock-backend/apps/forecasting/services.py:108-114 | the demand of a window is the sum of its rows: 0 for none, a single row's prediction, additive over concatenation |
| Forecast.DecisionWindowExactly | smartstock-backend/apps/forecasting/repositories.py:44-53 | the agent's window holds the earliest rows of the SKU from today on, by date, as many as asked for (7 for none) or all of them: what is left out is never earlier |
| Forecast.DashboardWindowExactly | smartstock-backend/apps/forecasting/services.py:84-110 | the dashboard's window holds the earliest rows of the SKU within the next 30 days, in the same way |
| Forecast.ReorderExactly | smartstock-backend/ai/agents/decision_agent.py:223-226 | the agent's formula: available stock is less than the summed demand of its window, one row for each day of the lead time (7 when there is none), plus the safety stock |
| Forecast.RiskExactly | smartstock-backend/apps/forecasting/services.py:101-116 | the dashboard's risk: the same for its own window, and no risk without a stock level |
| Alerts.LastFiring | smartstock-backend/apps/monitoring/alerts.py:133-137 | the newest firing event: none after it fires |
| Alerts.AlertRule.FindLastFiring | smartstock-backend/apps/monitoring/alerts.py:133-137 | the newest firing event |
| Alerts.AlertRule.EvaluateRule | smartstock-backend/apps/monitoring/alerts.py:127-147 | fires, stays silent during the cooldown, or resolves the newest firing event |
| Alerts.EvaluationKeepsSpacing | smartstock-backend/apps/monitoring/alerts.py:127-199 | every evaluation keeps the spacing invariant |
| Alerts.AlertsAreSpaced | smartstock-backend/apps/monitoring/alerts.py:127-199 | in every run with a monotone clock any two events firing at once were created at least the cooldown apart, and closer events are separated by a resolution |
| Alerts.CreationsApartExactly | smartstock-backend/apps/monitoring/alerts.py:127-199 | one evaluation keeps all creations at least the cooldown apart if and only if it is not a breach while the newest event is resolved and still within the cooldown |
| Alerts.RunCreationsApartExactly | smartstock-backend/apps/monitoring/alerts.py:127-199 | in every run with a monotone clock, creations are apart at every moment if and only if no evaluation was such a breach |
| Alerts.ResolutionEndsCooldown | smartstock-backend/apps/monitoring/alerts.py:132-141 | witness: after a resolution the next breach fires at once |
| Alerts.EscalationLog.Create | smartstock-backend/apps/notifications/service.py:41-81 | stores a row unless one for the order and reason is at most 24 hours old, and then returns the newest such row |
| Alerts.EscalationLog.Newest | smartstock-backend/apps/notifications/service.py:66-70 | the newest row for an order and reason, or none when there is none |
| Alerts.EscalationsAreSpaced | smartstock-backend/apps/notifications/service.py:52-81 | in every run with a monotone clock escalations for one order and reason are more than 24 hours apart |
| Alerts.EveryRequestIsCovered | smartstock-backend/apps/notifications/service.py:52-70 | no request is lost: each is answered, to the end of the run, by a row created between 24 hours before it and its own storing |
| Alerts.FiresExactly | smartstock-backend/apps/monitoring/alerts.py:127-147 | an evaluation adds one firing event if and only if an enabled rule is breached and no firing event is younger than the cooldown |
| Alerts.ResolvesExactly | smartstock-backend/apps/monitoring/alerts.py:181-199 | an evaluation changes an event if and only if it finds no breach and the event is the newest firing one, which is then resolved |
| Alerts.EscalatesExactly | smartstock-backend/apps/notifications/service.py:52-81 | a request adds a row if and only if no row for its order and reason is at most 24 hours old |
| StableSort.SortIsStable | smartstock-backend/ai/llm/llm_provider_manager.py:278 | the sort the ranking uses is a sorted, stable permutation |
| StableSort.StableSortUnique | smartstock-backend/ai/rag/retrieval.py:136 | and it is the only list with those properties, so any stable sort gives the same result |
| StableSort.FilterSort | smartstock-backend/apps/forecasting/repositories.py:44-53 | selecting rows before or after sorting gives the same list |

## Left out

- Direct creation, editing and deletion of orders through the REST viewset or the admin site: they bypass `draft_po`, and the theorems about runs assume they are not used.
- Interleaving inside one call: an agent run, the processing of one flag, a confirmation and a timeout sweep are each one step. They may be cut short (a flag before the draft or at any stage after it, a confirmation between booking and storing, a sweep on any row), but no other call comes between two of their writes.
- PurchasingAgents.PurchasingAgent.ExecuteWorkflow: one run reads one clock value where the source reads the clock at each write, because no branch depends on it; and the draft comes from `draft_po`, because an injected draft tool could hand the run any order at all and promises nothing.
- ReorderPipeline.POFromFlagCreator.UpsertOpenReorderFlag: the forecast and stock numbers stored on a flag are left out; they are copied into the prompt of the order creator and decide nothing else.
- Order numbers, total cost, agent name and reasoning texts: they are copied, not computed on.
- The pipeline runs one at a time and is the only creator of orders in its protocol; two concurrent pipelines can both pass the duplicate check.
- `evaluate_product`, the observation loop of the decision agent and the forecast step: they only choose which SKUs are decided on; any choice is covered.
- `get_llm`, `_create_llm`, `bind_tools` and `_stream`: building clients and partial output of a stream.
- Locking inside `ProviderHealth`: each method is one step.
- The request interceptor running in a microtask after a queued request is resolved: between the two no other event is modelled, so the resend carries the new token. A missing, null or empty token is one value. Which paths are exempt is an argument.
- Floating-point rounding, NaN and infinity: numbers are reals; scores and prices are compared exactly. Database column limits appear only as a refused row or a price that cannot be rounded.
- The order of keys in a parsed dictionary, and non-string keys.
- The normalised confidence of a stored scan, file handling, and audit entries.
- Stock levels created, edited or deleted directly, and a SKU without a product.
- Search chunks are values: the source overwrites the dense result's dictionary in place, which its callers could see through an alias.
- The dashboard's display fields (MAPE, confidence, rounded demand) and its answer when the query raises.
- `calculate_stockout_risk`, which reads the latest dates instead of the next ones, and the agent-success-rate alert, which fires without the cooldown: neither belongs to the related claims.
- Caches, audit logs, signals, notification fan-out, mail bodies, permissions, prompt filters, retrieval of the dense and sparse results themselves, and the translation of natural-language queries.
