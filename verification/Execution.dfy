/** Running a registered tool once per idempotency key, behind policy and approval. */
module Execution {
  import opened Domain
  import opened StateMachine
  import opened Store
  import opened Money
  import opened Policy
  import opened PolicyContext
  import opened Processor

  predicate Executable(s: CaseStatus) {
    match s
    case PolicyCheck | AwaitingApproval | Executing | ActionCompleted => true
    case RetryScheduled | NotRecovered | ExecutionFailed => true
    case _ => false
  }

  /** Tools that leave the case in place while they run. */
  predicate Quietly(tool: ActionKind) {
    tool.RetryLater? || tool.Escalate? || tool.DoNothing?
  }

  /** The approval and action with which ApprovalService re-enters execution. */
  datatype Grant = Grant(approval: nat, action: nat)

  /** The action row that a run re-enters. */
  function Reentered(grant: Option<Grant>): Option<nat> {
    if grant.Some? then Some(grant.value.action) else None
  }

  datatype Response = Answered(result: Result) | Replay(result: Result) | Error(code: ErrorCode) | Unanswered

  /** The unit of work to commit, or a crash that rolls the transaction back. */
  datatype Executed = Done(work: Work, response: Response) | Crashed

  datatype Ran = Finished(work: Work, result: Result) | Raised(work: Work, error: ErrorCode) | Lost

  predicate ValidInput(r: Request) {
    match r.tool
    case OfferDiscount => r.input.Discount?
    case RetryLater => r.input.Schedule?
    case _ => r.input.NoInput? || r.input.Text?
  }

  function ProposalOf(r: Request): Proposal {
    Proposal(r.tool, if r.input.Discount? then Some(r.input.percent) else None, None)
  }

  function Judged(u: Work, r: Request, settings: PolicySettings, env: Env, now: Micros): Verdict {
    Evaluate(BuildContext(u.row, u.id, u.tools, settings, env, now), ProposalOf(r))
  }

  function WithTools(u: Work, t: Tools): Work {
    u.(tools := t)
  }

  /* ----- Action rows ----- */

  function ExistingAction(u: Work, key: KeyId, existing: Option<nat>): (a: Option<nat>)
    ensures a.Some? ==> a.value < |u.tools.actions|
  {
    if existing.Some? && existing.value < |u.tools.actions| then existing else FindAction(u.tools.actions, key)
  }

  /** Where the row is, or will be. */
  function UpsertAt(u: Work, key: KeyId, existing: Option<nat>): (a: nat)
    ensures a <= |u.tools.actions|
  {
    var a := ExistingAction(u, key, existing);
    if a.Some? then a.value else |u.tools.actions|
  }

  /** Replaces row a, or adds it at the end. */
  function Touched(actions: seq<Action>, a: nat, row: Action): seq<Action>
    requires a <= |actions|
  {
    if a < |actions| then actions[a := row] else actions + [row]
  }

  /** The row that _upsert_action writes. A request of None leaves the recorded one alone. */
  function UpsertRow(u: Work, kind: ActionKind, key: KeyId, existing: Option<nat>,
                     status: ActionStatus, request: Option<Request>, now: Micros): Action
  {
    var a := ExistingAction(u, key, existing);
    if a.Some? then
      var row := u.tools.actions[a.value];
      row.(status := status, request := if request.Some? then request else row.request)
    else Action(key, u.id, kind, status, u.row.amountAtRisk, now, None, None, request, None)
  }

  /** _upsert_action. */
  function Upsert(u: Work, kind: ActionKind, key: KeyId, existing: Option<nat>,
                  status: ActionStatus, request: Option<Request>, now: Micros): (w: Work)
    ensures UpsertAt(u, key, existing) < |w.tools.actions|
  {
    var row := UpsertRow(u, kind, key, existing, status, request, now);
    WithTools(u, u.tools.(actions := Touched(u.tools.actions, UpsertAt(u, key, existing), row)))
  }

  /* ----- Handlers ----- */

  datatype Handled =
    | Handled(work: Work, ok: bool, reference: Option<ProviderRef>, amount: Option<nat>,
              newPayment: Option<PaymentId>, target: Option<CaseStatus>)
    | HandlerCrash

  function Refused(u: Work): Handled {
    Handled(u, false, None, None, None, None)
  }

  /** The discount in paise that offer_discount records; as_money refuses a negative one. */
  function DiscountPaise(amountAtRisk: nat, percent: real): int {
    RoundHalfEven(amountAtRisk as real * percent / 100.0)
  }

  function HandleRetryPayment(u: Work, env: Env): Handled {
    if u.row.payment.None? || u.row.payment.value !in u.payments || !env.reply.PaymentMade? then Refused(u)
    else
      var r := env.reply;
      var p := PaymentId(u.row.merchant, r.provider, r.reference);
      if p in u.payments then HandlerCrash
      else
        var customer := u.payments[u.row.payment.value].customer;
        var row := Payment(customer, r.order, r.amount, r.currency, r.status, r.failure,
                           if r.status == Captured then Some(r.occurredAt) else None);
        Handled(u.(payments := u.payments[p := row]), true, Some(r.reference), Some(r.amount), Some(p),
            Some(ActionCompleted))
  }

  function HandleCreatePaymentLink(u: Work, env: Env): Handled {
    if !env.reply.LinkMade? then Refused(u)
    else Handled(u, true, Some(env.reply.link), Some(env.reply.linkAmount), None, Some(ActionCompleted))
  }

  function HandleSendNotification(customers: map<CustomerId, MerchantId>, u: Work, now: Micros): Handled {
    if u.row.customer !in customers then Refused(u)
    else
      var n := Notice(u.row.merchant, u.row.customer, u.id, now);
      Handled(WithTools(u, u.tools.(notices := u.tools.notices + [n])), true, None, None, None, Some(ActionCompleted))
  }

  function HandleOfferDiscount(u: Work, percent: real): Handled {
    var amount := DiscountPaise(u.row.amountAtRisk, percent);
    if amount < 0 then HandlerCrash
    else Handled(u, true, None, Some(amount), None, Some(ActionCompleted))
  }

  function RunHandler(customers: map<CustomerId, MerchantId>, u: Work, r: Request, env: Env, now: Micros): Handled
    requires ValidInput(r)
  {
    match r.tool
    case RetryNow => HandleRetryPayment(u, env)
    case SendPaymentLink => HandleCreatePaymentLink(u, env)
    case SendReminder => HandleSendNotification(customers, u, now)
    case OfferDiscount => HandleOfferDiscount(u, r.input.percent)
    case RetryLater => Handled(u, true, None, None, None, Some(RetryScheduled))
    case Escalate => Handled(u, true, None, None, None, Some(Escalated))
    case DoNothing => Handled(u, true, None, None, None, Some(Stopped))
  }

  /** The statuses in which a successful tool may leave the case. */
  predicate OutcomeTarget(s: CaseStatus) {
    s.ActionCompleted? || s.RetryScheduled? || s.Escalated? || s.Stopped?
  }

  /** apply_case_outcome. */
  function ApplyOutcome(u: Work, target: CaseStatus, now: Micros): Work
    requires OutcomeTarget(target)
  {
    var current := u.row.status;
    if current == target then u
    else if target == ActionCompleted then
      var w := if current == PolicyCheck || current == AwaitingApproval then u.Move(Executing, now) else u;
      if w.row.status == Executing then w.Move(ActionCompleted, now) else w
    else if target == RetryScheduled then
      if current == PolicyCheck then u.Move(RetryScheduled, now) else u
    else if (current.PolicyCheck? || current.AwaitingApproval? || current.ExecutionFailed? || current.NotRecovered?)
        then u.Move(target, now)
    else u
  }

  /* ----- The run behind the idempotency key ----- */

  function GrantError(u: Work, g: Grant, now: Micros): Option<ErrorCode> {
    if g.approval >= |u.tools.approvals| || u.tools.approvals[g.approval].caseId != u.id then Some(ApprovalNotFound)
    else if u.tools.approvals[g.approval].status != Granted then Some(ApprovalNotApproved)
    else if u.tools.approvals[g.approval].expiresAt <= now then Some(ApprovalExpired)
    else if g.action < |u.tools.actions| && u.tools.actions[g.action].fingerprint.Some?
            && u.tools.actions[g.action].fingerprint.value != FingerprintOf(u.row) then Some(StaleApproval)
    else None
  }

  function CompletedRow(row: Action, h: Handled): Action
    requires h.Handled?
  {
    row.(reference := h.reference,
         amount := if h.amount.Some? then h.amount.value else row.amount,
         newPayment := if h.newPayment.Some? then h.newPayment else row.newPayment,
         status := if h.ok then Succeeded else ActionFailed)
  }

  function Complete(u: Work, a: nat, h: Handled): Work
    requires h.Handled? && a < |u.tools.actions|
  {
    WithTools(u, u.tools.(actions := u.tools.actions[a := CompletedRow(u.tools.actions[a], h)]))
  }

  function Started(u: Work, r: Request, key: KeyId, existing: Option<nat>, now: Micros): (w: Work)
    ensures UpsertAt(u, key, existing) < |w.tools.actions|
  {
    var w := Upsert(u, r.tool, key, existing, Running, Some(r), now);
    if !Quietly(r.tool) && (w.row.status.PolicyCheck? || w.row.status.AwaitingApproval?) then w.Move(Executing, now) else w
  }

  /** A handler changes nothing but payments and notices, and names where the case goes. */
  predicate HandledFrom(v: Work, h: Handled, quiet: bool) {
    && h.Handled?
    && h.work == v.(tools := h.work.tools, payments := h.work.payments)
    && h.work.tools == v.tools.(notices := h.work.tools.notices)
    && (h.ok ==> h.target.Some? && OutcomeTarget(h.target.value) && (h.target.value.ActionCompleted? <==> !quiet))
    && (!h.ok ==> !quiet)
  }

  lemma {:induction false} HandlerKeeps(customers: map<CustomerId, MerchantId>, v: Work, r: Request, env: Env, now: Micros)
    requires ValidInput(r)
    ensures var h := RunHandler(customers, v, r, env, now);
            h.Handled? ==> HandledFrom(v, h, Quietly(r.tool))
  {
  }

  /** Where the run leaves the case. */
  function AfterRun(w: Work, h: Handled, now: Micros): Work
    requires h.Handled? && (h.ok ==> h.target.Some? && OutcomeTarget(h.target.value))
  {
    if h.ok then ApplyOutcome(w, h.target.value, now)
    else if w.row.status == Executing then w.Move(ExecutionFailed, now)
    else w
  }

  function ResultOf(h: Handled, a: nat, grant: Option<Grant>): Result
    requires h.Handled?
  {
    if h.ok then Result(RunSucceeded, a, if grant.Some? then Some(grant.value.approval) else None)
    else Result(RunFailed, a, None)
  }

  /** A handler has run: its action row is completed and the case moves on. */
  function FinishRun(v: Work, h: Handled, a: nat, quiet: bool, grant: Option<Grant>, now: Micros): Ran
    requires HandledFrom(v, h, quiet) && a < |v.tools.actions|
  {
    Finished(AfterRun(Complete(h.work, a, h), h, now), ResultOf(h, a, grant))
  }

  function Perform(customers: map<CustomerId, MerchantId>, u: Work, r: Request, key: KeyId, grant: Option<Grant>,
                   env: Env, now: Micros): Ran
    requires ValidInput(r)
  {
    var existing := Reentered(grant);
    var v := Started(u, r, key, existing, now);
    var h := RunHandler(customers, v, r, env, now);
    if h.HandlerCrash? then Lost
    else
      HandlerKeeps(customers, v, r, env, now);
      FinishRun(v, h, UpsertAt(u, key, existing), Quietly(r.tool), grant, now)
  }

  function AskForApproval(u: Work, r: Request, key: KeyId, ttl: int, now: Micros): Ran {
    var a := UpsertAt(u, key, None);
    var w := AskApproval(Upsert(u, r.tool, key, None, ApprovalRequired, Some(r), now), a, ttl, now);
    Finished(if w.row.status == PolicyCheck then w.Move(AwaitingApproval, now) else w,
             Result(NeedsApproval, a, Some(|u.tools.approvals|)))
  }

  /** _run_after_idempotency, once policy has given its verdict. */
  function RunJudged(customers: map<CustomerId, MerchantId>, u: Work, r: Request, key: KeyId, grant: Option<Grant>,
                     v: Verdict, ttl: int, env: Env, now: Micros): Ran
    requires ValidInput(r)
  {
    if !Executable(u.row.status) then Raised(u, InvalidCaseState)
    else if !v.allowed then
      var existing := Reentered(grant);
      Finished(Upsert(u, r.tool, key, existing, Blocked, None, now), Result(RunBlocked, UpsertAt(u, key, existing), None))
    else if v.requiresApproval && grant.None? then AskForApproval(u, r, key, ttl, now)
    else if grant.Some? && GrantError(u, grant.value, now).Some? then Raised(u, GrantError(u, grant.value, now).value)
    else Perform(customers, u, r, key, grant, env, now)
  }

  /** _run_after_idempotency. */
  function RunTool(customers: map<CustomerId, MerchantId>, u: Work, r: Request, key: KeyId, grant: Option<Grant>,
                   settings: PolicySettings, env: Env, now: Micros): Ran
    requires ValidInput(r)
  {
    RunJudged(customers, u, r, key, grant, Judged(u, r, settings, env, now), settings.approvalTtl, env, now)
  }

  /* ----- Idempotency ----- */

  datatype Gate = Proceed | Stored(result: Result) | Busy

  /** What an existing key record with the same request lets through. */
  function GateOf(rec: KeyRecord, granted: bool): Gate {
    if rec.status == InProgress && granted then Proceed
    else if rec.result.Some? then Stored(rec.result.value)
    else if rec.status == InProgress then Busy
    else Proceed
  }

  function Opened(u: Work, id: KeyId, r: Request): Work {
    if id in u.tools.keys then u
    else WithTools(u, u.tools.(keys := u.tools.keys[id := KeyRecord(InProgress, r, None)]))
  }

  function Closed(w: Work, id: KeyId, rec: KeyRecord, call: ToolCall): Work {
    WithTools(w, w.tools.(keys := w.tools.keys[id := rec], calls := w.tools.calls + [call]))
  }

  function RecordAfter(rec: KeyRecord, ran: Ran): KeyRecord
    requires !ran.Lost?
  {
    if ran.Raised? then rec.(status := KeyFailed)
    else if ran.result.outcome == NeedsApproval then rec.(result := Some(ran.result))
    else rec.(status := KeyCompleted, result := Some(ran.result))
  }

  /** Records how the run ended, in the key and in the tool call. */
  function Conclude(begun: Work, id: KeyId, r: Request, ran: Ran): Executed
    requires id in begun.tools.keys
  {
    if ran.Lost? then Crashed
    else
      var call := ToolCall(id, begun.id, r.tool, if ran.Raised? then Failed(ran.error) else Returned(ran.result.outcome));
      Done(Closed(ran.work, id, RecordAfter(begun.tools.keys[id], ran), call),
           if ran.Raised? then Error(ran.error) else Answered(ran.result))
  }

  /** What meets a request before any side effect: an answer, or the way to the run. */
  function Admission(u: Work, r: Request, id: KeyId, granted: bool): Option<Response> {
    if !ValidInput(r) then Some(Error(InvalidInput))
    else if Terminal(u.row.status) then Some(Error(CaseTerminal))
    else if id !in u.tools.keys then None
    else if u.tools.keys[id].request != r then Some(Error(KeyConflict))
    else
      match GateOf(u.tools.keys[id], granted)
      case Stored(result) => Some(Replay(result))
      case Busy => Some(Error(KeyBusy))
      case Proceed => None
  }

  /** ToolExecutionService.execute on a locked case. */
  function Execute(customers: map<CustomerId, MerchantId>, u: Work, r: Request, key: Key, grant: Option<Grant>,
                   settings: PolicySettings, env: Env, now: Micros): Executed
  {
    var id := KeyId(u.row.merchant, key);
    var answer := Admission(u, r, id, grant.Some?);
    if answer.Some? then Done(u, answer.value)
    else Conclude(Opened(u, id, r), id, r, RunTool(customers, Opened(u, id, r), r, id, grant, settings, env, now))
  }

  /* ----- Approvals ----- */

  function LatestApproval(approvals: seq<Approval>, caseId: nat, a: nat): (found: Option<nat>)
    ensures found.Some? ==>
      && found.value < |approvals| && approvals[found.value].caseId == caseId && approvals[found.value].action == a
    ensures found.None? <==> forall x <- approvals :: !(x.caseId == caseId && x.action == a)
  {
    if approvals == [] then None
    else
      var n := |approvals| - 1;
      if approvals[n].caseId == caseId && approvals[n].action == a then Some(n)
      else
        var found := LatestApproval(approvals[..n], caseId, a);
        assert approvals == approvals[..n] + [approvals[n]];
        found
  }

  function SetApproval(u: Work, n: nat, status: ApprovalStatus): Work
    requires n < |u.tools.approvals|
  {
    WithTools(u, u.tools.(approvals := u.tools.approvals[n := u.tools.approvals[n].(status := status)]))
  }

  function SetAction(u: Work, a: nat, status: ActionStatus): Work
    requires a < |u.tools.actions|
  {
    WithTools(u, u.tools.(actions := u.tools.actions[a := u.tools.actions[a].(status := status)]))
  }

  /** _expire_if_needed. */
  function ExpireIfNeeded(u: Work, n: nat, now: Micros): Work
    requires n < |u.tools.approvals|
  {
    if u.tools.approvals[n].status == AwaitingDecision && u.tools.approvals[n].expiresAt <= now
    then SetApproval(u, n, Expired) else u
  }

  function RecordedRequest(a: Action): Request {
    if a.request.Some? then a.request.value else Request(a.kind, NoInput)
  }

  /** Why an approval cannot be given, once it has been expired if need be. */
  function ApprovalRefusal(u: Work, a: nat, n: nat): Option<ErrorCode>
    requires a < |u.tools.actions| && n < |u.tools.approvals|
  {
    if u.tools.approvals[n].status == Expired then Some(ApprovalExpired)
    else if u.tools.approvals[n].status != AwaitingDecision then Some(ApprovalNotPending)
    else if !(u.tools.actions[a].status.ApprovalRequired? || u.tools.actions[a].status.Approved?
        || u.tools.actions[a].status.Pending?) then Some(ActionNotApprovable)
    else None
  }

  function Approving(u: Work, a: nat, n: nat): Work
    requires a < |u.tools.actions| && n < |u.tools.approvals|
  {
    SetAction(SetApproval(u, n, Granted), a, Approved)
  }

  /** The action and its latest approval for this case. */
  function FindApproval(u: Work, a: nat): (found: Option<nat>)
    ensures found.Some? ==> a < |u.tools.actions| && found.value < |u.tools.approvals|
  {
    if a < |u.tools.actions| && u.tools.actions[a].keyId.merchant == u.row.merchant
    then LatestApproval(u.tools.approvals, u.id, a) else None
  }

  /** approve_action: decide the pending approval, then re-enter execution with it. */
  function Approve(customers: map<CustomerId, MerchantId>, u: Work, a: nat,
                   settings: PolicySettings, env: Env, now: Micros): Executed
  {
    var found := FindApproval(u, a);
    if found.None? then Done(u, Error(if a < |u.tools.actions| && u.tools.actions[a].keyId.merchant == u.row.merchant
                                      then ApprovalNotFound else ActionNotFound))
    else
      var n := found.value;
      var w := ExpireIfNeeded(u, n, now);
      var refusal := ApprovalRefusal(w, a, n);
      if refusal.Some? then Done(w, Error(refusal.value))
      else Execute(customers, Approving(w, a, n), RecordedRequest(w.tools.actions[a]), w.tools.actions[a].keyId.key,
                   Some(Grant(n, a)), settings, env, now)
  }

  /** The tables after a rejection: approval, action and key. */
  function Rejecting(u: Work, a: nat, n: nat): Work
    requires a < |u.tools.actions| && n < |u.tools.approvals|
  {
    var w := SetAction(SetApproval(u, n, Rejected), a, ActionCancelled);
    var id := u.tools.actions[a].keyId;
    if id in w.tools.keys then WithTools(w, w.tools.(keys := w.tools.keys[id := w.tools.keys[id].(status := KeyFailed)])) else w
  }

  /** reject_action, which does not insist on a pending approval. */
  function Reject(u: Work, a: nat, now: Micros): Work {
    var found := FindApproval(u, a);
    if found.None? then u
    else
      var w := Rejecting(u, a, found.value);
      if w.row.status == AwaitingApproval then w.Move(Escalated, now) else w
  }
}
