/** What a tool call makes of the store: how it is answered, where the case is left, and what the
    action row, the payment table and the notifications hold afterwards, tool by tool. */
module ToolOutcomes {
  import opened Domain
  import opened Store
  import opened Money
  import opened Policy
  import opened Processor
  import opened Planning
  import opened Execution
  import opened Tooling
  import opened Engine
  import opened Ledger
  import opened Gating
  import opened Outcomes

  /* ----- Where a tool leaves the case ----- */

  /** From these statuses a case can be handed over or stopped. */
  predicate Releasable(s: CaseStatus) {
    s.PolicyCheck? || s.AwaitingApproval? || s.ExecutionFailed? || s.NotRecovered?
  }

  /** A finished tool leaves the case here; `ok` says that it succeeded. */
  function LeavesAt(tool: ActionKind, ok: bool, s: CaseStatus): CaseStatus {
    match tool
    case Escalate => if Releasable(s) then Escalated else s
    case DoNothing => if Releasable(s) then Stopped else s
    case RetryLater => if s.PolicyCheck? then RetryScheduled else s
    case _ =>
      if s.PolicyCheck? || s.AwaitingApproval? || s.Executing? then if ok then ActionCompleted else ExecutionFailed else s
  }

  /** The transitions on the way: a side effect passes through EXECUTING. */
  function MovesTo(tool: ActionKind, s: CaseStatus): nat {
    if tool.Escalate? || tool.DoNothing? || tool.RetryLater? || s.Executing? then 1 else 2
  }

  function LeftBy(c: Case, tool: ActionKind, ok: bool, now: Micros): Case {
    var s := LeavesAt(tool, ok, c.status);
    if s == c.status then c
    else c.(status := s, version := c.version + MovesTo(tool, c.status), closedAt := if s.Stopped? then Some(now) else None)
  }

  /* ----- What a handler needs, and what it leaves behind ----- */

  predicate Manages(customers: map<CustomerId, MerchantId>, u: Work, tool: ActionKind, env: Env) {
    match tool
    case RetryNow => u.row.payment.Some? && u.row.payment.value in u.payments && env.reply.PaymentMade?
    case SendPaymentLink => env.reply.LinkMade?
    case SendReminder => u.row.customer in customers
    case _ => true
  }

  /** The payment that a retry makes has the provider's own reference. */
  function MadePayment(c: Case, env: Env): PaymentId
    requires env.reply.PaymentMade?
  {
    PaymentId(c.merchant, env.reply.provider, env.reply.reference)
  }

  /** It is booked for the customer of the failed one, as the provider reports it, and counts
      as captured from the provider's time on if it was captured. */
  function MadeRow(customer: CustomerId, env: Env): Payment
    requires env.reply.PaymentMade?
  {
    var r := env.reply;
    Payment(customer, r.order, r.amount, r.currency, r.status, r.failure,
            match r.status case Captured => Some(r.occurredAt) case _ => None)
  }

  ghost predicate PaymentsLeft(u: Work, payments: map<PaymentId, Payment>, tool: ActionKind, ok: bool, env: Env) {
    if tool.RetryNow? && ok then
      && env.reply.PaymentMade? && u.row.payment.Some? && u.row.payment.value in u.payments
      && MadePayment(u.row, env) !in u.payments
      && payments == u.payments[MadePayment(u.row, env) := MadeRow(u.payments[u.row.payment.value].customer, env)]
    else payments == u.payments
  }

  function NoticesLeft(u: Work, tool: ActionKind, ok: bool, now: Micros): seq<Notice> {
    u.tools.notices + if tool.SendReminder? && ok then [Notice(u.row.merchant, u.row.customer, u.id, now)] else []
  }

  /** A percentage of an amount, in whole paise. */
  function Discounted(amount: nat, percent: real): int {
    RoundHalfEven(amount as real * percent / 100.0)
  }

  /** The finished row: it has the request, the provider's reference, the payment it made and
      the amount that it moved, where the tool has them. */
  ghost predicate RowLeft(u: Work, before: Action, after: Action, r: Request, ok: bool, env: Env) {
    && after == before.(status := if ok then Succeeded else ActionFailed, request := Some(r), reference := after.reference,
                        newPayment := after.newPayment, amount := after.amount)
    && match r.tool
       case RetryNow =>
         if ok then
           && env.reply.PaymentMade? && after.reference == Some(env.reply.reference)
           && after.newPayment == Some(MadePayment(u.row, env)) && after.amount == env.reply.amount
         else after.reference.None? && after.newPayment == before.newPayment && after.amount == before.amount
       case SendPaymentLink =>
         && after.newPayment == before.newPayment
         && if ok then env.reply.LinkMade? && after.reference == Some(env.reply.link) && after.amount == env.reply.linkAmount
            else after.reference.None? && after.amount == before.amount
       case OfferDiscount =>
         && after.reference.None? && after.newPayment == before.newPayment && r.input.Discount?
         && after.amount as int == Discounted(u.row.amountAtRisk, r.input.percent)
       case _ => after.reference.None? && after.newPayment == before.newPayment && after.amount == before.amount
  }

  /** The row that a run starts from: the one that is re-entered, or a new one. */
  function RowBefore(u: Work, a: nat, id: KeyId, tool: ActionKind, now: Micros): Action {
    if a < |u.tools.actions| then u.tools.actions[a]
    else Action(id, u.id, tool, Running, u.row.amountAtRisk, now, None, None, None, None)
  }

  /** A handler has come to its end on the case, and this is all it did to case, row a,
      payments and notices; the key and the call are recorded beside it. */
  ghost predicate RanOn(customers: map<CustomerId, MerchantId>, u: Work, w: Work, r: Request, id: KeyId, a: nat, ok: bool,
                      env: Env, now: Micros)
  {
    && w.id == u.id && w.creditedFrom == u.creditedFrom
    && w.row == LeftBy(u.row, r.tool, ok, now)
    && (ok <==> Manages(customers, u, r.tool, env))
    && a <= |u.tools.actions| && a < |w.tools.actions|
    && |w.tools.actions| == (if a < |u.tools.actions| then |u.tools.actions| else |u.tools.actions| + 1)
    && (forall k | 0 <= k < |u.tools.actions| && k != a :: w.tools.actions[k] == u.tools.actions[k])
    && RowLeft(u, RowBefore(u, a, id, r.tool, now), w.tools.actions[a], r, ok, env)
    && PaymentsLeft(u, w.payments, r.tool, ok, env)
    && w.tools.notices == NoticesLeft(u, r.tool, ok, now)
    && w.tools.approvals == u.tools.approvals
  }

  /** A handler leaves payments and notices as told, reports what the row will hold, and names
      where the case goes. */
  ghost predicate HandledAs(customers: map<CustomerId, MerchantId>, v: Work, h: Handled, r: Request, env: Env, now: Micros) {
    && h.Handled?
    && (h.ok <==> Manages(customers, v, r.tool, env))
    && h.work == v.(payments := h.work.payments, tools := v.tools.(notices := NoticesLeft(v, r.tool, h.ok, now)))
    && PaymentsLeft(v, h.work.payments, r.tool, h.ok, env)
    && (h.ok ==> h.target == Some(match r.tool
                                  case Escalate => Escalated
                                  case DoNothing => Stopped
                                  case RetryLater => RetryScheduled
                                  case _ => ActionCompleted))
  }

  lemma {:induction false} HandlerLeaves(customers: map<CustomerId, MerchantId>, v: Work, r: Request, env: Env, now: Micros)
    requires ValidInput(r)
    ensures var h := RunHandler(customers, v, r, env, now);
            h.HandlerCrash? || HandledAs(customers, v, h, r, env, now)
  {
    var h := RunHandler(customers, v, r, env, now);
    if h.Handled? {
      assert v.tools.notices + [] == v.tools.notices;
      assert h.ok <==> Manages(customers, v, r.tool, env);
      assert PaymentsLeft(v, h.work.payments, r.tool, h.ok, env);
      assert h.work == v.(payments := h.work.payments, tools := v.tools.(notices := NoticesLeft(v, r.tool, h.ok, now)));
    }
  }

  lemma DiscountIsRounded(amount: nat, percent: real)
    ensures DiscountPaise(amount, percent) == Discounted(amount, percent)
  {
  }

  lemma {:induction false} DiscountCompletes(v: Work, row: Action, r: Request, env: Env)
    requires r.tool.OfferDiscount? && r.input.Discount? && row.request == Some(r)
    ensures var h := HandleOfferDiscount(v, r.input.percent);
            h.HandlerCrash? || RowLeft(v, row, CompletedRow(row, h), r, h.ok, env)
  {
    DiscountIsRounded(v.row.amountAtRisk, r.input.percent);
  }

  lemma {:induction false} HandlerCompletes(customers: map<CustomerId, MerchantId>, v: Work, r: Request, row: Action, env: Env,
                       now: Micros)
    requires ValidInput(r) && row.request == Some(r)
    ensures var h := RunHandler(customers, v, r, env, now);
            h.HandlerCrash? || RowLeft(v, row, CompletedRow(row, h), r, h.ok, env)
  {
    var h := RunHandler(customers, v, r, env, now);
    if h.Handled? {
      match r.tool
      case RetryNow => assert h == HandleRetryPayment(v, env);
      case SendPaymentLink => assert h == HandleCreatePaymentLink(v, env);
      case SendReminder => assert h == HandleSendNotification(customers, v, now);
      case OfferDiscount => DiscountCompletes(v, row, r, env);
      case _ => assert h.amount.None? && h.reference.None? && h.newPayment.None?;
    }
  }

  /* ----- One run ----- */

  /** The case when the handler is called: a side effect has moved it to EXECUTING. */
  function StartsAs(c: Case, tool: ActionKind): Case {
    if (c.status.PolicyCheck? || c.status.AwaitingApproval?) && !tool.Escalate? && !tool.DoNothing? && !tool.RetryLater?
    then c.(status := Executing, version := c.version + 1, closedAt := None) else c
  }

  function RowStarted(u: Work, a: nat, r: Request, id: KeyId, now: Micros): Action {
    RowBefore(u, a, id, r.tool, now).(status := Running, request := Some(r))
  }

  lemma {:induction false} StartLeaves(u: Work, r: Request, key: KeyId, existing: Option<nat>, now: Micros)
    ensures var v, a := Started(u, r, key, existing, now), UpsertAt(u, key, existing);
            && v == u.(row := StartsAs(u.row, r.tool), log := v.log, tools := v.tools)
            && v.tools == u.tools.(actions := Touched(u.tools.actions, a,
                 RowStarted(u, a, r, key, now)))
  {
  }

  /** The last transition of a run. */
  lemma {:induction false} EndLeaves(c: Case, v: Work, h: Handled, r: Request, now: Micros)
    requires v.row == StartsAs(c, r.tool) && h.Handled? && Executable(c.status)
    requires h.ok ==> h.target == Some(match r.tool
                                       case Escalate => Escalated
                                       case DoNothing => Stopped
                                       case RetryLater => RetryScheduled
                                       case _ => ActionCompleted)
    requires r.tool.Escalate? || r.tool.DoNothing? || r.tool.RetryLater? ==> h.ok
    ensures var x := AfterRun(v, h, now);
            x == v.(row := LeftBy(c, r.tool, h.ok, now), log := x.log)
  {
    if h.ok {
      OutcomeLeaves(c, v, r.tool, h.target.value, now);
    }
  }

  lemma {:induction false} OutcomeLeaves(c: Case, v: Work, tool: ActionKind, target: CaseStatus, now: Micros)
    requires v.row == StartsAs(c, tool) && Executable(c.status)
    requires target == match tool case Escalate => Escalated case DoNothing => Stopped case RetryLater => RetryScheduled
             case _ => ActionCompleted
    ensures var x := ApplyOutcome(v, target, now);
            x == v.(row := LeftBy(c, tool, true, now), log := x.log)
  {
    match tool
    case Escalate =>
    case DoNothing =>
    case RetryLater =>
    case _ => CompletionLeaves(c, v, tool, now);
  }

  lemma {:induction false} CompletionLeaves(c: Case, v: Work, tool: ActionKind, now: Micros)
    requires v.row == StartsAs(c, tool) && Executable(c.status)
    requires !tool.Escalate? && !tool.DoNothing? && !tool.RetryLater?
    ensures var x := ApplyOutcome(v, ActionCompleted, now);
            x == v.(row := LeftBy(c, tool, true, now), log := x.log)
  {
  }

  /** A run, from the call of its tool to the place where it leaves the case. */
  lemma {:induction false} PerformLeaves(customers: map<CustomerId, MerchantId>, u: Work, r: Request, key: KeyId,
                       grant: Option<Grant>, env: Env, now: Micros)
    requires ValidInput(r) && Executable(u.row.status)
    ensures var ran, a := Perform(customers, u, r, key, grant, env, now), UpsertAt(u, key, Reentered(grant));
            ran.Lost? ||
            (ran.Finished? && ran.result.action == a
             && (ran.result.outcome.RunSucceeded? || ran.result.outcome.RunFailed?)
             && RanOn(customers, u, ran.work, r, key, a, ran.result.outcome.RunSucceeded?, env, now))
  {
    var a, v := UpsertAt(u, key, Reentered(grant)), Started(u, r, key, Reentered(grant), now);
    var h := RunHandler(customers, v, r, env, now);
    if h.Handled? {
      StartLeaves(u, r, key, Reentered(grant), now);
      HandlerKeeps(customers, v, r, env, now);
      HandlerLeaves(customers, v, r, env, now);
      HandlerCompletes(customers, v, r, RowStarted(u, a, r, key, now), env, now);
      FinishLeaves(customers, u, v, h, r, key, a, grant, env, now);
      assert Perform(customers, u, r, key, grant, env, now) == FinishRun(v, h, a, Quietly(r.tool), grant, now);
    }
  }

  lemma {:induction false} FinishLeaves(customers: map<CustomerId, MerchantId>, u: Work, v: Work, h: Handled, r: Request,
                       key: KeyId, a: nat, grant: Option<Grant>, env: Env, now: Micros)
    requires ValidInput(r) && Executable(u.row.status) && a <= |u.tools.actions|
    requires v == u.(row := StartsAs(u.row, r.tool), log := v.log, tools := v.tools)
    requires v.tools == u.tools.(actions := Touched(u.tools.actions, a,
               RowStarted(u, a, r, key, now)))
    requires HandledFrom(v, h, Quietly(r.tool)) && HandledAs(customers, v, h, r, env, now)
    requires RowLeft(v, RowStarted(u, a, r, key, now), CompletedRow(RowStarted(u, a, r, key, now), h), r, h.ok, env)
    ensures a < |v.tools.actions|
    ensures var ran := FinishRun(v, h, a, Quietly(r.tool), grant, now);
            && ran.Finished? && ran.result.action == a
            && (if h.ok then ran.result.outcome.RunSucceeded? else ran.result.outcome.RunFailed?)
            && RanOn(customers, u, ran.work, r, key, a, h.ok, env, now)
  {
    var row := RowStarted(u, a, r, key, now);
    var w := Complete(h.work, a, h);
    TouchTwice(u.tools.actions, a, row, CompletedRow(row, h));
    EndLeaves(u.row, w, h, r, now);
    RowLeftFrom(u, v, RowBefore(u, a, key, r.tool, now), CompletedRow(row, h), r, h.ok, env);
    TablesLeave(customers, u, v, h, w, AfterRun(w, h, now), r, key, a, row, env, now);
  }

  lemma {:induction false} TablesLeave(customers: map<CustomerId, MerchantId>, u: Work, v: Work, h: Handled, w: Work, x: Work,
                       r: Request, key: KeyId, a: nat, row: Action, env: Env, now: Micros)
    requires h.Handled? && a <= |u.tools.actions|
    requires v == u.(row := StartsAs(u.row, r.tool), log := v.log, tools := v.tools)
    requires v.tools == u.tools.(actions := Touched(u.tools.actions, a, row)) && a < |v.tools.actions|
    requires HandledAs(customers, v, h, r, env, now) && Touched(u.tools.actions, a, row)[a] == row
    requires w == h.work.(tools := h.work.tools.(actions := Touched(u.tools.actions, a, CompletedRow(row, h))))
    requires x == w.(row := LeftBy(u.row, r.tool, h.ok, now), log := x.log)
    requires RowLeft(u, RowBefore(u, a, key, r.tool, now), CompletedRow(row, h), r, h.ok, env)
    ensures RanOn(customers, u, x, r, key, a, h.ok, env, now)
  {
    assert u.row.customer == v.row.customer && u.row.payment == v.row.payment && u.row.merchant == v.row.merchant;
  }

  lemma {:induction false} RowLeftFrom(u: Work, v: Work, before: Action, after: Action, r: Request, ok: bool, env: Env)
    requires v.row.merchant == u.row.merchant && v.row.amountAtRisk == u.row.amountAtRisk
    requires || RowLeft(v, before.(status := Running, request := Some(r)), after, r, ok, env)
             || RowLeft(v, before, after, r, ok, env)
    ensures RowLeft(u, before, after, r, ok, env)
  {
  }

  /* ----- One call ----- */

  predicate SchemaFits(r: Request) {
    match r.tool
    case OfferDiscount => r.input.Discount?
    case RetryLater => r.input.Schedule?
    case _ => r.input.NoInput? || r.input.Text?
  }

  /** Tools run on a case that stands at its policy check or later, unless it is being verified,
      has been handed over, or is closed. */
  predicate ToolsRunAt(s: CaseStatus) {
    || s.PolicyCheck? || s.AwaitingApproval? || s.Executing? || s.ActionCompleted?
    || s.RetryScheduled? || s.NotRecovered? || s.ExecutionFailed?
  }

  /** The row that a call writes: the one its approval is for, else the last one under its key,
      else a new one at the end. */
  ghost predicate WritesRow(u: Work, id: KeyId, grant: Option<Grant>, a: nat) {
    var actions := u.tools.actions;
    if grant.Some? && grant.value.action < |actions| then a == grant.value.action
    else if a < |actions| then actions[a].keyId == id && forall k | a < k < |actions| :: actions[k].keyId != id
    else a == |actions| && forall k | 0 <= k < |actions| :: actions[k].keyId != id
  }

  lemma {:induction false} FoundIsLast(actions: seq<Action>, id: KeyId)
    ensures match FindAction(actions, id)
            case Some(a) => actions[a].keyId == id && forall k | a < k < |actions| :: actions[k].keyId != id
            case None => forall k | 0 <= k < |actions| :: actions[k].keyId != id
  {
    if actions != [] && actions[|actions| - 1].keyId != id {
      FoundIsLast(actions[..|actions| - 1], id);
      assert forall k | 0 <= k < |actions| - 1 :: actions[..|actions| - 1][k] == actions[k];
    }
  }

  lemma {:induction false} UpsertWritesRow(u: Work, id: KeyId, grant: Option<Grant>)
    ensures WritesRow(u, id, grant, UpsertAt(u, id, Reentered(grant)))
  {
    FoundIsLast(u.tools.actions, id);
  }

  /** What the key and the call say after a call that went past the key. */
  ghost predicate KeyAnswers(u: Work, w: Work, id: KeyId, r: Request, status: KeyStatus, result: Option<Result>,
                             call: CallStatus)
  {
    && w.tools.keys == u.tools.keys[id := KeyRecord(status, r, result)]
    && w.tools.calls == u.tools.calls + [ToolCall(id, u.id, r.tool, call)]
  }

  /** The call failed before any effect: its key is FAILED and keeps the answer it had. */
  ghost predicate Fails(u: Work, done: Executed, id: KeyId, r: Request, code: ErrorCode) {
    && done.Done? && done.response == Error(code)
    && KeyAnswers(u, done.work, id, r, KeyFailed, if id in u.tools.keys then u.tools.keys[id].result else None, Failed(code))
    && done.work == u.(tools := u.tools.(keys := done.work.tools.keys, calls := done.work.tools.calls))
  }

  /** Policy forbids the call: its row is BLOCKED, and the case stays. */
  ghost predicate Blocks(u: Work, done: Executed, id: KeyId, r: Request, a: nat, now: Micros) {
    && done.Done? && done.response == Answered(Result(RunBlocked, a, None))
    && KeyAnswers(u, done.work, id, r, KeyCompleted, Some(Result(RunBlocked, a, None)), Returned(RunBlocked))
    && a <= |u.tools.actions|
    && done.work == u.(tools := u.tools.(
         actions := Touched(u.tools.actions, a, RowBefore(u, a, id, r.tool, now).(status := Blocked)),
         keys := done.work.tools.keys, calls := done.work.tools.calls))
  }

  /** A human is asked: the row remembers the request and the case's fingerprint, a new approval
      of it is pending for the merchant's time to live, and a case at its policy check waits. */
  ghost predicate Asks(u: Work, done: Executed, id: KeyId, r: Request, a: nat, ttl: int, now: Micros) {
    var result := Result(NeedsApproval, a, Some(|u.tools.approvals|));
    && done.Done? && done.response == Answered(result)
    && KeyAnswers(u, done.work, id, r, if id in u.tools.keys then u.tools.keys[id].status else InProgress, Some(result),
                  Returned(NeedsApproval))
    && a <= |u.tools.actions|
    && done.work == u.(
         row := if u.row.status.PolicyCheck?
                then u.row.(status := AwaitingApproval, version := u.row.version + 1, closedAt := None) else u.row,
         log := done.work.log,
         tools := u.tools.(
           actions := Touched(u.tools.actions, a, RowBefore(u, a, id, r.tool, now)
                        .(status := ApprovalRequired, request := Some(r), fingerprint := Remembered(u.row))),
           approvals := u.tools.approvals + [Approval(u.id, a, AwaitingDecision, now + ttl)],
           keys := done.work.tools.keys, calls := done.work.tools.calls))
  }

  /** A handler has run to its end. */
  ghost predicate HandlerRan(customers: map<CustomerId, MerchantId>, u: Work, done: Executed, id: KeyId, r: Request,
                        grant: Option<Grant>, a: nat, env: Env, now: Micros)
  {
    var ok := Manages(customers, u, r.tool, env);
    var result := if ok then Result(RunSucceeded, a, if grant.Some? then Some(grant.value.approval) else None)
                  else Result(RunFailed, a, None);
    && done.Done? && done.response == Answered(result)
    && KeyAnswers(u, done.work, id, r, KeyCompleted, Some(result), Returned(result.outcome))
    && RanOn(customers, u, done.work, r, id, a, ok, env, now)
  }

  /** The handler finds a payment under the provider's reference, or a negative discount. */
  predicate Crashes(customers: map<CustomerId, MerchantId>, u: Work, r: Request, env: Env) {
    match r.tool
    case RetryNow => Manages(customers, u, RetryNow, env) && MadePayment(u.row, env) in u.payments
    case OfferDiscount => r.input.Discount? && Discounted(u.row.amountAtRisk, r.input.percent) < 0
    case _ => false
  }

  /** What keeps an approval from being used. */
  function GrantRefused(u: Work, g: Grant, now: Micros): Option<ErrorCode> {
    var approvals, actions := u.tools.approvals, u.tools.actions;
    if !(g.approval < |approvals| && approvals[g.approval].caseId == u.id) then Some(ApprovalNotFound)
    else if !approvals[g.approval].status.Granted? then Some(ApprovalNotApproved)
    else if !(now < approvals[g.approval].expiresAt) then Some(ApprovalExpired)
    else if g.action < |actions| && actions[g.action].fingerprint.Some? && actions[g.action].fingerprint != Remembered(u.row)
    then Some(StaleApproval)
    else None
  }

  /** A call that has got past its key, under a verdict of policy. */
  ghost predicate RunAs(customers: map<CustomerId, MerchantId>, u: Work, done: Executed, id: KeyId, r: Request,
                        grant: Option<Grant>, v: Verdict, ttl: int, env: Env, now: Micros)
  {
    if !ToolsRunAt(u.row.status) then Fails(u, done, id, r, InvalidCaseState)
    else if !v.allowed then exists a :: WritesRow(u, id, grant, a) && Blocks(u, done, id, r, a, now)
    else if v.requiresApproval && grant.None? then exists a :: WritesRow(u, id, None, a) && Asks(u, done, id, r, a, ttl, now)
    else if grant.Some? && GrantRefused(u, grant.value, now).Some? then
      Fails(u, done, id, r, GrantRefused(u, grant.value, now).value)
    else if Crashes(customers, u, r, env) then done.Crashed?
    else exists a :: WritesRow(u, id, grant, a) && HandlerRan(customers, u, done, id, r, grant, a, env, now)
  }

  /** A tool call, from its schema to its effect. */
  ghost predicate CalledAs(customers: map<CustomerId, MerchantId>, u: Work, done: Executed, r: Request, id: KeyId,
                           grant: Option<Grant>, v: Verdict, ttl: int, env: Env, now: Micros)
  {
    var keys := u.tools.keys;
    if !SchemaFits(r) then done == Done(u, Error(InvalidInput))
    else if u.row.status.Recovered? || u.row.status.Stopped? then done == Done(u, Error(CaseTerminal))
    else if id in keys && keys[id].request != r then done == Done(u, Error(KeyConflict))
    else if id in keys && keys[id].result.Some? && !(keys[id].status.InProgress? && grant.Some?) then
      done == Done(u, Replay(keys[id].result.value))
    else if id in keys && keys[id].status.InProgress? && grant.None? then done == Done(u, Error(KeyBusy))
    else RunAs(customers, u, done, id, r, grant, v, ttl, env, now)
  }

  /** What concluding a run writes beside its work. */
  lemma {:induction false} ConcludingAnswers(u: Work, id: KeyId, r: Request, ran: Ran)
    requires !ran.Lost? && (id in u.tools.keys ==> u.tools.keys[id].request == r)
    requires SameKeys(Opened(u, id, r).tools, ran.work.tools)
    ensures var done := Conclude(Opened(u, id, r), id, r, ran);
            && done.Done?
            && done.work == ran.work.(tools := ran.work.tools.(keys := done.work.tools.keys, calls := done.work.tools.calls))
            && done.response == (if ran.Raised? then Error(ran.error) else Answered(ran.result))
            && var result := if id in u.tools.keys then u.tools.keys[id].result else None;
               if ran.Raised? then KeyAnswers(u, done.work, id, r, KeyFailed, result, Failed(ran.error))
               else
                 KeyAnswers(u, done.work, id, r,
                            if !ran.result.outcome.NeedsApproval? then KeyCompleted
                            else if id in u.tools.keys then u.tools.keys[id].status else InProgress,
                            Some(ran.result), Returned(ran.result.outcome))
  {
    var begun := Opened(u, id, r);
    var done, rec := Conclude(begun, id, r, ran), begun.tools.keys[id];
    assert rec.request == r;
    assert begun.tools.keys[id := RecordAfter(rec, ran)] == u.tools.keys[id := RecordAfter(rec, ran)];
  }

  lemma {:induction false} CallFails(u: Work, id: KeyId, r: Request, code: ErrorCode)
    requires id in u.tools.keys ==> u.tools.keys[id].request == r
    ensures Fails(u, Conclude(Opened(u, id, r), id, r, Raised(Opened(u, id, r), code)), id, r, code)
  {
    ConcludingAnswers(u, id, r, Raised(Opened(u, id, r), code));
  }

  lemma {:induction false} CallBlocks(u: Work, id: KeyId, r: Request, grant: Option<Grant>, ran: Ran, now: Micros)
    requires id in u.tools.keys ==> u.tools.keys[id].request == r
    requires var begun, existing := Opened(u, id, r), Reentered(grant);
             ran == Finished(Upsert(begun, r.tool, id, existing, Blocked, None, now),
                             Result(RunBlocked, UpsertAt(begun, id, existing), None))
    ensures var a := UpsertAt(u, id, Reentered(grant));
            WritesRow(u, id, grant, a) && Blocks(u, Conclude(Opened(u, id, r), id, r, ran), id, r, a, now)
  {
    UpsertWritesRow(u, id, grant);
    ConcludingAnswers(u, id, r, ran);
    var a := UpsertAt(u, id, Reentered(grant));
    assert UpsertRow(Opened(u, id, r), r.tool, id, Reentered(grant), Blocked, None, now)
           == RowBefore(u, a, id, r.tool, now).(status := Blocked);
  }

  lemma {:induction false} CallAsks(u: Work, id: KeyId, r: Request, ttl: int, now: Micros)
    requires id in u.tools.keys ==> u.tools.keys[id].request == r
    ensures var a, begun := UpsertAt(u, id, None), Opened(u, id, r);
            && WritesRow(u, id, None, a)
            && Asks(u, Conclude(begun, id, r, AskForApproval(begun, r, id, ttl, now)), id, r, a, ttl, now)
  {
    var a, begun := UpsertAt(u, id, None), Opened(u, id, r);
    var ran := AskForApproval(begun, r, id, ttl, now);
    UpsertWritesRow(u, id, None);
    AskShape(begun, r, id, ttl, now);
    ConcludingAnswers(u, id, r, ran);
    AskedCase(begun, r, id, ttl, now);
    assert AskedRow(begun, r, id, now)
           == RowBefore(u, a, id, r.tool, now).(status := ApprovalRequired, request := Some(r), fingerprint := Remembered(u.row));
  }

  lemma {:induction false} AskedCase(u: Work, r: Request, id: KeyId, ttl: int, now: Micros)
    ensures var ran := AskForApproval(u, r, id, ttl, now);
            && ran == Finished(ran.work, Result(NeedsApproval, UpsertAt(u, id, None), Some(|u.tools.approvals|)))
            && ran.work == u.(row := ran.work.row, log := ran.work.log, tools := ran.work.tools)
            && ran.work.row == if u.row.status.PolicyCheck?
                               then u.row.(status := AwaitingApproval, version := u.row.version + 1, closedAt := None) else u.row
  {
  }

  lemma {:induction false} CallRuns(customers: map<CustomerId, MerchantId>, u: Work, id: KeyId, r: Request,
                       grant: Option<Grant>, env: Env, now: Micros)
    requires ValidInput(r) && Executable(u.row.status) && (id in u.tools.keys ==> u.tools.keys[id].request == r)
    ensures var a, ran := UpsertAt(u, id, Reentered(grant)), Perform(customers, Opened(u, id, r), r, id, grant, env, now);
            && WritesRow(u, id, grant, a)
            && (ran.Lost? <==> Crashes(customers, u, r, env))
            && (!ran.Lost? ==> HandlerRan(customers, u, Conclude(Opened(u, id, r), id, r, ran), id, r, grant, a, env, now))
  {
    var begun := Opened(u, id, r);
    var ran := Perform(customers, begun, r, id, grant, env, now);
    UpsertWritesRow(u, id, grant);
    PerformCrashes(customers, begun, r, id, grant, env, now);
    if !ran.Lost? {
      PerformLeaves(customers, begun, r, id, grant, env, now);
      PerformKeeps(customers, begun, r, id, grant, env, now);
      RanIsConcluded(customers, u, id, r, grant, UpsertAt(u, id, Reentered(grant)), ran, env, now);
    }
  }

  lemma {:induction false} RanIsConcluded(customers: map<CustomerId, MerchantId>, u: Work, id: KeyId, r: Request,
                       grant: Option<Grant>, a: nat, ran: Ran, env: Env, now: Micros)
    requires ran.Finished? && (id in u.tools.keys ==> u.tools.keys[id].request == r)
    requires SameKeys(Opened(u, id, r).tools, ran.work.tools)
    requires var ok := ran.result.outcome.RunSucceeded?;
             && (ok || ran.result.outcome.RunFailed?) && ran.result.action == a
             && ran.result.approval == (if ok && grant.Some? then Some(grant.value.approval) else None)
             && RanOn(customers, Opened(u, id, r), ran.work, r, id, a, ok, env, now)
    ensures HandlerRan(customers, u, Conclude(Opened(u, id, r), id, r, ran), id, r, grant, a, env, now)
  {
    ConcludingAnswers(u, id, r, ran);
    RanOpened(customers, u, Conclude(Opened(u, id, r), id, r, ran).work, ran.work, r, id, a,
              ran.result.outcome.RunSucceeded?, env, now);
  }

  lemma {:induction false} PerformCrashes(customers: map<CustomerId, MerchantId>, u: Work, r: Request, id: KeyId,
                       grant: Option<Grant>, env: Env, now: Micros)
    requires ValidInput(r)
    ensures Perform(customers, u, r, id, grant, env, now).Lost? <==> Crashes(customers, u, r, env)
  {
    StartLeaves(u, r, id, Reentered(grant), now);
    var v := Started(u, r, id, Reentered(grant), now);
    HandlerCrashes(customers, v, r, env, now);
  }

  lemma {:induction false} HandlerCrashes(customers: map<CustomerId, MerchantId>, v: Work, r: Request, env: Env, now: Micros)
    requires ValidInput(r)
    ensures RunHandler(customers, v, r, env, now).HandlerCrash? <==> Crashes(customers, v, r, env)
  {
    if r.tool.OfferDiscount? {
      DiscountIsRounded(v.row.amountAtRisk, r.input.percent);
    }
  }

  lemma {:induction false} PerformKeeps(customers: map<CustomerId, MerchantId>, u: Work, r: Request, id: KeyId,
                       grant: Option<Grant>, env: Env, now: Micros)
    requires ValidInput(r)
    ensures var ran := Perform(customers, u, r, id, grant, env, now);
            ran.Lost? ||
            (ran.Finished? && SameKeys(u.tools, ran.work.tools)
             && ran.result.approval
                == (if ran.result.outcome.RunSucceeded? && grant.Some? then Some(grant.value.approval) else None))
  {
    PerformShape(customers, u, r, id, grant, env, now);
  }

  /** Opening the key and answering it are no part of what the handler did. */
  lemma {:induction false} RanOpened(customers: map<CustomerId, MerchantId>, u: Work, w: Work, w': Work, r: Request,
                       id: KeyId, a: nat, ok: bool, env: Env, now: Micros)
    requires RanOn(customers, Opened(u, id, r), w', r, id, a, ok, env, now)
    requires w == w'.(tools := w'.tools.(keys := w.tools.keys, calls := w.tools.calls))
    ensures RanOn(customers, u, w, r, id, a, ok, env, now)
  {
    var begun := Opened(u, id, r);
    RowLeftFrom(u, begun, RowBefore(u, a, id, r.tool, now), w.tools.actions[a], r, ok, env);
    assert begun.row == u.row && begun.id == u.id && begun.payments == u.payments;
    assert begun.tools == u.tools.(keys := begun.tools.keys);
  }

  lemma {:induction false} RunOutcome(customers: map<CustomerId, MerchantId>, u: Work, r: Request, id: KeyId,
                       grant: Option<Grant>, v: Verdict, ttl: int, env: Env, now: Micros)
    requires ValidInput(r) && (id in u.tools.keys ==> u.tools.keys[id].request == r)
    ensures var begun := Opened(u, id, r);
            RunAs(customers, u, Conclude(begun, id, r, RunJudged(customers, begun, r, id, grant, v, ttl, env, now)),
                  id, r, grant, v, ttl, env, now)
  {
    var begun := Opened(u, id, r);
    assert Executable(u.row.status) <==> ToolsRunAt(u.row.status);
    if !Executable(u.row.status) {
      CallFails(u, id, r, InvalidCaseState);
    } else if !v.allowed {
      CallBlocks(u, id, r, grant, RunJudged(customers, begun, r, id, grant, v, ttl, env, now), now);
    } else if v.requiresApproval && grant.None? {
      CallAsks(u, id, r, ttl, now);
    } else {
      GrantedRunOutcome(customers, u, r, id, grant, v, ttl, env, now);
    }
  }

  lemma {:induction false} GrantedRunOutcome(customers: map<CustomerId, MerchantId>, u: Work, r: Request, id: KeyId,
                       grant: Option<Grant>, v: Verdict, ttl: int, env: Env, now: Micros)
    requires ValidInput(r) && Executable(u.row.status) && (id in u.tools.keys ==> u.tools.keys[id].request == r)
    requires v.allowed && !(v.requiresApproval && grant.None?)
    ensures var begun := Opened(u, id, r);
            RunAs(customers, u, Conclude(begun, id, r, RunJudged(customers, begun, r, id, grant, v, ttl, env, now)),
                  id, r, grant, v, ttl, env, now)
  {
    assert grant.Some? ==> GrantError(Opened(u, id, r), grant.value, now) == GrantRefused(u, grant.value, now);
    if grant.Some? && GrantRefused(u, grant.value, now).Some? {
      CallFails(u, id, r, GrantRefused(u, grant.value, now).value);
    } else {
      CallRuns(customers, u, id, r, grant, env, now);
    }
  }

  /** Every tool call, with an approval or without, is answered and takes effect as told. */
  lemma {:induction false} CallOutcome(customers: map<CustomerId, MerchantId>, u: Work, r: Request, key: Key,
                       grant: Option<Grant>, settings: PolicySettings, env: Env, now: Micros)
    ensures CalledAs(customers, u, Execute(customers, u, r, key, grant, settings, env, now), r, KeyId(u.row.merchant, key), grant,
                     Judged(u, r, settings, env, now), settings.approvalTtl, env, now)
  {
    var id, v := KeyId(u.row.merchant, key), Judged(u, r, settings, env, now);
    if Admission(u, r, id, grant.Some?).None? {
      OpenedJudgement(u, id, r, settings, env, now);
      AdmittedRuns(customers, u, r, key, grant, settings, v, env, now);
      RunOutcome(customers, u, r, id, grant, v, settings.approvalTtl, env, now);
      var begun := Opened(u, id, r);
      var ran := RunJudged(customers, begun, r, id, grant, v, settings.approvalTtl, env, now);
      AdmittedIsCalled(customers, u, Conclude(begun, id, r, ran), r, id, grant, v, settings.approvalTtl, env, now);
    } else {
      AnsweredIsCalled(customers, u, r, id, grant, v, settings.approvalTtl, env, now);
    }
  }

  lemma {:induction false} AdmittedRuns(customers: map<CustomerId, MerchantId>, u: Work, r: Request, key: Key,
                       grant: Option<Grant>, settings: PolicySettings, v: Verdict, env: Env, now: Micros)
    requires var id := KeyId(u.row.merchant, key);
             Admission(u, r, id, grant.Some?).None? && v == Judged(Opened(u, id, r), r, settings, env, now)
    ensures var id := KeyId(u.row.merchant, key);
            var begun := Opened(u, id, r);
            Execute(customers, u, r, key, grant, settings, env, now)
            == Conclude(begun, id, r, RunJudged(customers, begun, r, id, grant, v, settings.approvalTtl, env, now))
  {
  }

  lemma {:induction false} AdmittedIsCalled(customers: map<CustomerId, MerchantId>, u: Work, done: Executed, r: Request,
                       id: KeyId, grant: Option<Grant>, v: Verdict, ttl: int, env: Env, now: Micros)
    requires Admission(u, r, id, grant.Some?).None? && RunAs(customers, u, done, id, r, grant, v, ttl, env, now)
    ensures CalledAs(customers, u, done, r, id, grant, v, ttl, env, now)
  {
    assert ValidInput(r) <==> SchemaFits(r);
  }

  lemma {:induction false} AnsweredIsCalled(customers: map<CustomerId, MerchantId>, u: Work, r: Request, id: KeyId,
                       grant: Option<Grant>, v: Verdict, ttl: int, env: Env, now: Micros)
    requires Admission(u, r, id, grant.Some?).Some?
    ensures CalledAs(customers, u, Done(u, Admission(u, r, id, grant.Some?).value), r, id, grant, v, ttl, env, now)
  {
    assert ValidInput(r) <==> SchemaFits(r);
  }

  /* ----- One step ----- */

  /** The transaction on case i is committed whole, or has crashed and left no trace. */
  ghost predicate Committed(t: Db, db': Db, i: nat, done: Executed)
    requires i < |t.cases|
  {
    match done
    case Crashed => db' == t
    case Done(w, _) =>
      db' == t.(cases := t.cases[i := w.row], audit := db'.audit, tools := w.tools, payments := w.payments,
                creditedFrom := w.creditedFrom)
  }

  lemma {:induction false} StepIsCommitted(db: Db, s: Step)
    requires Locks(db, s.op)
    ensures Committed(Ticked(db, s), Next(db, s), CaseOf(s.op).value, Worked(Ticked(db, s), s.op, s.env))
  {
    CaseStepShape(Ticked(db, s), s.op, s.env);
    assert Next(db, s) == Stepped(Ticked(db, s), s.op, s.env);
  }

  /** A client's tool call. */
  lemma {:induction false} ExecutionOutcome(db: Db, s: Step)
    requires Locks(db, s.op) && s.op.ExecuteTool?
    ensures var i, t, done := s.op.i, Ticked(db, s), Worked(Ticked(db, s), s.op, s.env);
            var u, settings := Begin(t, i), db.merchants[db.cases[i].merchant];
            && CalledAs(db.customers, u, done, s.op.request, KeyId(u.row.merchant, ClientKey(s.op.name)), None,
                        Judged(u, s.op.request, settings, s.env, t.clock), settings.approvalTtl, s.env, t.clock)
            && Committed(t, Next(db, s), i, done)
  {
    var i, t := s.op.i, Ticked(db, s);
    StepIsCommitted(db, s);
    WorkOfCalls(t, s.op, s.env);
    CallOutcome(db.customers, Begin(t, i), s.op.request, ClientKey(s.op.name), None, db.merchants[db.cases[i].merchant], s.env,
                t.clock);
  }

  lemma {:induction false} WorkOfCalls(db: Db, op: Op, env: Env)
    requires Locks(db, op)
    ensures op.ExecuteTool? ==>
              Worked(db, op, env) == Execute(db.customers, Begin(db, op.i), op.request, ClientKey(op.name), None,
                                             db.merchants[db.cases[op.i].merchant], env, db.clock)
    ensures op.ApproveAction? ==>
              Worked(db, op, env) == Approve(db.customers, Begin(db, op.i), op.action,
                                             db.merchants[db.cases[op.i].merchant], env, db.clock)
  {
  }

  function WithApproval(u: Work, n: nat, status: ApprovalStatus): Work
    requires n < |u.tools.approvals|
  {
    u.(tools := u.tools.(approvals := u.tools.approvals[n := u.tools.approvals[n].(status := status)]))
  }

  /** The approval is given: it is granted, and its row approved. */
  function Given(u: Work, a: nat, n: nat): Work
    requires a < |u.tools.actions| && n < |u.tools.approvals|
  {
    var w := WithApproval(u, n, Granted);
    w.(tools := w.tools.(actions := w.tools.actions[a := w.tools.actions[a].(status := Approved)]))
  }

  /** The call that the row waits for. */
  function CallOf(row: Action): Request {
    match row.request
    case Some(r) => r
    case None => Request(row.kind, NoInput)
  }

  /** Approval n of row a, the latest one there is. */
  ghost predicate ApprovedUnder(customers: map<CustomerId, MerchantId>, u: Work, done: Executed, a: nat, n: nat,
                                settings: PolicySettings, env: Env, now: Micros)
    requires a < |u.tools.actions| && n < |u.tools.approvals|
  {
    var ap, row := u.tools.approvals[n], u.tools.actions[a];
    if ap.status.AwaitingDecision? && ap.expiresAt <= now then
      done == Done(WithApproval(u, n, Expired), Error(ApprovalExpired))
    else if ap.status.Expired? then done == Done(u, Error(ApprovalExpired))
    else if !ap.status.AwaitingDecision? then done == Done(u, Error(ApprovalNotPending))
    else if !row.status.Pending? && !row.status.ApprovalRequired? && !row.status.Approved? then
      done == Done(u, Error(ActionNotApprovable))
    else
      var w := Given(u, a, n);
      CalledAs(customers, w, done, CallOf(row), row.keyId, Some(Grant(n, a)), Judged(w, CallOf(row), settings, env, now),
               settings.approvalTtl, env, now)
  }

  /** An approval of row a: of another merchant's or a missing row, of a row that was never put
      up for approval, or of one that was. */
  ghost predicate ApprovedAs(customers: map<CustomerId, MerchantId>, u: Work, done: Executed, a: nat,
                             settings: PolicySettings, env: Env, now: Micros)
  {
    if a >= |u.tools.actions| || u.tools.actions[a].keyId.merchant != u.row.merchant then done == Done(u, Error(ActionNotFound))
    else
      && ((forall n: nat :: !IsLatest(u.tools.approvals, u.id, a, n)) ==> done == Done(u, Error(ApprovalNotFound)))
      && (forall n: nat | IsLatest(u.tools.approvals, u.id, a, n) :: ApprovedUnder(customers, u, done, a, n, settings, env, now))
  }

  lemma {:induction false} GivingApproval(customers: map<CustomerId, MerchantId>, u: Work, a: nat, n: nat,
                       settings: PolicySettings, env: Env, now: Micros)
    requires FindApproval(u, a) == Some(n)
    ensures ApprovedUnder(customers, u, Approve(customers, u, a, settings, env, now), a, n, settings, env, now)
  {
    var row := u.tools.actions[a];
    if ApprovalRefusal(ExpireIfNeeded(u, n, now), a, n).None? {
      GivenIsExecuted(customers, u, a, n, settings, env, now);
      CallOutcome(customers, Given(u, a, n), CallOf(row), row.keyId.key, Some(Grant(n, a)), settings, env, now);
    } else {
      RefusingApproval(customers, u, a, n, settings, env, now);
    }
  }

  lemma {:induction false} GivenIsExecuted(customers: map<CustomerId, MerchantId>, u: Work, a: nat, n: nat,
                       settings: PolicySettings, env: Env, now: Micros)
    requires FindApproval(u, a) == Some(n) && ApprovalRefusal(ExpireIfNeeded(u, n, now), a, n).None?
    ensures var row, ap := u.tools.actions[a], u.tools.approvals[n];
            && ap.status.AwaitingDecision? && !(ap.expiresAt <= now)
            && (row.status.Pending? || row.status.ApprovalRequired? || row.status.Approved?)
            && KeyId(u.row.merchant, row.keyId.key) == row.keyId
            && Approve(customers, u, a, settings, env, now)
               == Execute(customers, Given(u, a, n), CallOf(row), row.keyId.key, Some(Grant(n, a)), settings, env, now)
  {
    var w, row := ExpireIfNeeded(u, n, now), u.tools.actions[a];
    assert w == u && Approving(w, a, n) == Given(u, a, n) && RecordedRequest(row) == CallOf(row);
  }

  lemma {:induction false} RefusingApproval(customers: map<CustomerId, MerchantId>, u: Work, a: nat, n: nat,
                       settings: PolicySettings, env: Env, now: Micros)
    requires FindApproval(u, a) == Some(n) && ApprovalRefusal(ExpireIfNeeded(u, n, now), a, n).Some?
    ensures ApprovedUnder(customers, u, Approve(customers, u, a, settings, env, now), a, n, settings, env, now)
  {
  }

  lemma {:induction false} ApproveOutcome(customers: map<CustomerId, MerchantId>, u: Work, a: nat,
                       settings: PolicySettings, env: Env, now: Micros)
    ensures ApprovedAs(customers, u, Approve(customers, u, a, settings, env, now), a, settings, env, now)
  {
    var done, found := Approve(customers, u, a, settings, env, now), FindApproval(u, a);
    LatestIsLast(u.tools.approvals, u.id, a);
    if found.Some? {
      GivingApproval(customers, u, a, found.value, settings, env, now);
      forall n: nat | IsLatest(u.tools.approvals, u.id, a, n) ensures n == found.value {
        assert IsLatest(u.tools.approvals, u.id, a, found.value);
      }
    }
  }

  /** Giving an approval, with the call that it re-enters. */
  lemma {:induction false} ApprovalOutcome(db: Db, s: Step)
    requires Locks(db, s.op) && s.op.ApproveAction?
    ensures var i, t, done := s.op.i, Ticked(db, s), Worked(Ticked(db, s), s.op, s.env);
            && ApprovedAs(db.customers, Begin(t, i), done, s.op.action, db.merchants[db.cases[i].merchant], s.env, t.clock)
            && Committed(t, Next(db, s), i, done)
  {
    var i, t := s.op.i, Ticked(db, s);
    StepIsCommitted(db, s);
    WorkOfCalls(t, s.op, s.env);
    ApproveOutcome(db.customers, Begin(t, i), s.op.action, db.merchants[db.cases[i].merchant], s.env, t.clock);
  }

  /** The tool that a step calls. */
  function ToolOf(db: Db, op: Op): ActionKind
    requires op.ExecuteTool? || (op.ApproveAction? && op.action < |db.tools.actions|)
  {
    match op
    case ExecuteTool(_, r, _) => r.tool
    case ApproveAction(_, a) => CallOf(db.tools.actions[a]).tool
  }

  ghost predicate LeftAs(c: Case, c': Case, response: Response, tool: ActionKind, now: Micros) {
    if response.Answered? && Ended(response.result.outcome) then
      c' == LeftBy(c, tool, response.result.outcome.RunSucceeded?, now)
    else if response.Answered? && response.result.outcome.NeedsApproval? && c.status.PolicyCheck? then
      c' == c.(status := AwaitingApproval, version := c.version + 1, closedAt := None)
    else c' == c
  }

  /** Where a tool leaves the case: a call, approved or not, that is answered as succeeded or
      failed leaves the case where the tool does from the status it had; one that asks for
      approval leaves a case at its policy check waiting; every other answer leaves the case
      as it was. */
  lemma {:induction false} ToolLeavesCase(db: Db, s: Step)
    requires var t := Ticked(db, s);
             && Locks(t, s.op) && (s.op.ExecuteTool? || (s.op.ApproveAction? && s.op.action < |t.tools.actions|))
             && Worked(t, s.op, s.env).Done?
    ensures var i, t := CaseOf(s.op).value, Ticked(db, s);
            && i < |Next(db, s).cases|
            && LeftAs(t.cases[i], Next(db, s).cases[i], Worked(t, s.op, s.env).response, ToolOf(t, s.op), t.clock)
  {
    CommittedRow(db, s);
    WorkLeavesCase(Ticked(db, s), s.op, s.env);
  }

  lemma {:induction false} CommittedRow(db: Db, s: Step)
    requires Locks(db, s.op) && Worked(Ticked(db, s), s.op, s.env).Done?
    ensures CaseOf(s.op).value < |Next(db, s).cases|
    ensures Next(db, s).cases[CaseOf(s.op).value] == Worked(Ticked(db, s), s.op, s.env).work.row
  {
    StepIsCommitted(db, s);
  }

  lemma {:induction false} WorkLeavesCase(db: Db, op: Op, env: Env)
    requires Locks(db, op) && (op.ExecuteTool? || (op.ApproveAction? && op.action < |db.tools.actions|))
    requires Worked(db, op, env).Done?
    ensures LeftAs(db.cases[CaseOf(op).value], Worked(db, op, env).work.row, Worked(db, op, env).response, ToolOf(db, op),
                   db.clock)
  {
    if op.ExecuteTool? {
      ExecutionLeavesCase(db, op, env);
    } else {
      ApprovalStepLeavesCase(db, op, env);
    }
  }

  lemma {:induction false} ExecutionLeavesCase(db: Db, op: Op, env: Env)
    requires Locks(db, op) && op.ExecuteTool? && Worked(db, op, env).Done?
    ensures var done := Worked(db, op, env); LeftAs(db.cases[op.i], done.work.row, done.response, op.request.tool, db.clock)
  {
    var u, settings := Begin(db, op.i), db.merchants[db.cases[op.i].merchant];
    WorkOfCalls(db, op, env);
    CallOutcome(db.customers, u, op.request, ClientKey(op.name), None, settings, env, db.clock);
    CallLeavesCase(db.customers, u, Execute(db.customers, u, op.request, ClientKey(op.name), None, settings, env, db.clock),
                   op.request, KeyId(u.row.merchant, ClientKey(op.name)), None, Judged(u, op.request, settings, env, db.clock),
                   settings.approvalTtl, env, db.clock);
  }

  lemma {:induction false} ApprovalStepLeavesCase(db: Db, op: Op, env: Env)
    requires Locks(db, op) && op.ApproveAction? && op.action < |db.tools.actions| && Worked(db, op, env).Done?
    ensures var done := Worked(db, op, env);
            LeftAs(db.cases[op.i], done.work.row, done.response, CallOf(db.tools.actions[op.action]).tool, db.clock)
  {
    var u, settings := Begin(db, op.i), db.merchants[db.cases[op.i].merchant];
    WorkOfCalls(db, op, env);
    ApproveOutcome(db.customers, u, op.action, settings, env, db.clock);
    ApprovalLeavesCase(db.customers, u, Approve(db.customers, u, op.action, settings, env, db.clock), op.action, settings, env,
                       db.clock);
  }

  lemma {:induction false} CallLeavesCase(customers: map<CustomerId, MerchantId>, u: Work, done: Executed, r: Request,
                       id: KeyId, grant: Option<Grant>, v: Verdict, ttl: int, env: Env, now: Micros)
    requires done.Done? && CalledAs(customers, u, done, r, id, grant, v, ttl, env, now)
    ensures LeftAs(u.row, done.work.row, done.response, r.tool, now)
  {
  }

  lemma {:induction false} ApprovalLeavesCase(customers: map<CustomerId, MerchantId>, u: Work, done: Executed, a: nat,
                       settings: PolicySettings, env: Env, now: Micros)
    requires a < |u.tools.actions|
    requires done.Done? && ApprovedAs(customers, u, done, a, settings, env, now)
    ensures LeftAs(u.row, done.work.row, done.response, CallOf(u.tools.actions[a]).tool, now)
  {
    if u.tools.actions[a].keyId.merchant == u.row.merchant {
      LatestIsLast(u.tools.approvals, u.id, a);
      if n: nat :| IsLatest(u.tools.approvals, u.id, a, n) {
        GivenLeavesCase(customers, u, done, a, n, settings, env, now);
      }
    }
  }

  lemma {:induction false} GivenLeavesCase(customers: map<CustomerId, MerchantId>, u: Work, done: Executed, a: nat, n: nat,
                       settings: PolicySettings, env: Env, now: Micros)
    requires a < |u.tools.actions| && n < |u.tools.approvals|
    requires done.Done? && ApprovedUnder(customers, u, done, a, n, settings, env, now)
    ensures LeftAs(u.row, done.work.row, done.response, CallOf(u.tools.actions[a]).tool, now)
  {
    var w, row := Given(u, a, n), u.tools.actions[a];
    if CalledAs(customers, w, done, CallOf(row), row.keyId, Some(Grant(n, a)), Judged(w, CallOf(row), settings, env, now),
                settings.approvalTtl, env, now) {
      CallLeavesCase(customers, w, done, CallOf(row), row.keyId, Some(Grant(n, a)), Judged(w, CallOf(row), settings, env, now),
                     settings.approvalTtl, env, now);
    }
  }
}
