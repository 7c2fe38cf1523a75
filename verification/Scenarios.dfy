/** Runs from the empty store that reach what the general results describe: an approval that
    is never executed, denials by an action's own row, and a full capture that is not booked. */
module Scenarios {
  import opened Domain
  import opened StateMachine
  import opened Store
  import opened Policy
  import opened PolicyContext
  import opened Processor
  import opened Verification
  import opened Crediting
  import opened Execution
  import opened Events
  import opened Engine
  import opened Idempotency
  import opened Gating
  import opened Retries
  import opened Budget

  const AT_RISK: nat := 200_000
  const TTL: nat := MICROS_PER_DAY
  const FAILED_PAYMENT := PaymentId(0, 0, 5)
  const FAILURE_KEY := EventKey(0, 1)
  const CAPTURE_KEY := EventKey(0, 2)
  const CALM := Env(false, false, false, true, {}, ProviderFails)

  /** One retry per case, a daily budget of 50000 paise, approval above 100000 paise. */
  const ONE_RETRY := PolicySettings(1_000_000.0, 100_000.0, 1, 20.0, 50_000.0, 3, 0, 0, true, TTL)

  const START := Empty(MICROS_PER_DAY, 0, map[0 := ONE_RETRY], map[0 := 0])

  function Now(op: Op): Step {
    Step(0, CALM, op)
  }

  function Delivery(kind: EventKind, failure: Option<FailureCode>): EventBody {
    PaymentEvent(kind, 5, None, AT_RISK, 0, Some(0), failure, 0)
  }

  const OPENED := Case(0, 0, Some(FAILED_PAYMENT), Detected, AT_RISK, 0, 0, 1, 0, None, None, None, None)

  /** The store in which one failed payment has opened one case. */
  function OneCase(code: FailureCode): Db {
    START.(payments := map[FAILED_PAYMENT := Payment(0, None, AT_RISK, 0, PaymentFailed, Some(code), None)],
           cases := [OPENED],
           audit := [AuditRow(None, EventDone(FAILURE_KEY, 0))],
           webhooks := map[FAILURE_KEY := Webhook(0, Delivery(FailedEvent, Some(code)), Processed)])
  }

  function Opening(code: FailureCode): seq<Step> {
    [Now(Ingest(FAILURE_KEY, 0, Delivery(FailedEvent, Some(code)))), Now(ProcessEvent(FAILURE_KEY))]
  }

  lemma {:induction false} OneMoreStep(db: Db, steps: seq<Step>, s: Step)
    ensures Run(db, steps + [s]) == Next(Run(db, steps), s)
  {
    assert (steps + [s])[..|steps + [s]| - 1] == steps;
  }

  lemma {:induction false} Opens(code: FailureCode)
    ensures Run(START, Opening(code)) == OneCase(code)
  {
    var ingest, process := Opening(code)[0], Opening(code)[1];
    var delivered := START.(webhooks := map[FAILURE_KEY := Webhook(0, Delivery(FailedEvent, Some(code)), Received)]);
    OneMoreStep(START, [], ingest);
    OneMoreStep(START, [ingest], process);
    assert [] + [ingest] == [ingest] && [ingest] + [process] == Opening(code);
    assert Next(START, ingest) == delivered;
    DeliveredOpens(delivered, code);
    assert Next(delivered, process) == EventProcessed(delivered, FAILURE_KEY, 0);
  }

  lemma {:induction false} DeliveredOpens(delivered: Db, code: FailureCode)
    requires delivered
             == START.(webhooks := map[FAILURE_KEY := Webhook(0, Delivery(FailedEvent, Some(code)), Received)])
    ensures EventProcessed(delivered, FAILURE_KEY, 0) == OneCase(code)
  {
  }

  /* ----- What policy says of the case ----- */

  /** A link, a retry or a tenth off. */
  predicate Approvable(r: Request) {
    match r.tool
    case SendPaymentLink => r.input.NoInput?
    case RetryLater => r.input.Schedule?
    case OfferDiscount => r.input.Discount? && r.input.percent == 10.0
    case _ => false
  }

  /** No tool has been used, and policy would let this one through with an approval. */
  lemma {:induction false} FirstAsks(u: Work, r: Request)
    requires u.row.amountAtRisk == AT_RISK && u.row.mismatch.None? && u.tools.actions == [] && u.tools.notices == []
    requires Approvable(r)
    ensures var v := Judged(u, r, ONE_RETRY, CALM, 0); v.allowed && v.requiresApproval
  {
    var c := BuildContext(u.row, u.id, u.tools, ONE_RETRY, CALM, 0);
    AllowedIff(c, ProposalOf(r));
  }

  /* ----- A step of the one case ----- */

  /** The store has the one case, with this status and these tables, and nothing else to read. */
  ghost predicate StandsAt(db: Db, status: CaseStatus, tools: Tools) {
    && db.clock == 0 && db.merchants == START.merchants && db.customers == START.customers
    && db.window == START.window && db.grace == START.grace
    && |db.cases| == 1
    && db.cases[0] == OPENED.(status := status, version := db.cases[0].version, closedAt := None)
    && db.tools == tools
  }

  lemma {:induction false} CaseSteps(db: Db, op: Op, status: CaseStatus, tools: Tools, status': CaseStatus, tools': Tools)
    requires StandsAt(db, status, tools) && CaseOf(op) == Some(0)
    requires var done := Worked(db, op, CALM);
             && done.Done? && done.work.tools == tools'
             && done.work.row == OPENED.(status := status', version := done.work.row.version, closedAt := None)
             && done.work.payments == db.payments
    ensures StandsAt(Next(db, Now(op)), status', tools')
    ensures Next(db, Now(op)).payments == db.payments && Next(db, Now(op)).webhooks == db.webhooks
  {
    assert Ticked(db, Now(op)) == db;
    assert Next(db, Now(op)) == Stepped(db, op, CALM);
  }

  /** The walk to the policy check, and then whatever the case is asked for. */
  lemma {:induction false} WalkIsOpen(u: Work)
    requires u.row == OPENED.(version := u.row.version)
    ensures var w := Walked(u, 0);
            && w.id == u.id && w.tools == u.tools && w.payments == u.payments
            && w.row == OPENED.(status := PolicyCheck, version := w.row.version)
  {
    WalkKeeps(u, 0);
    WalkStaysOpen(u);
  }

  lemma {:induction false} WalkStaysOpen(u: Work)
    requires u.row.closedAt.None?
    ensures Walked(u, 0).row.closedAt.None?
    decreases Rank(PolicyCheck) - Rank(u.row.status)
  {
    if Rank(u.row.status) < Rank(PolicyCheck) {
      WalkStaysOpen(u.Move(NextStage(u.row.status), 0));
    }
  }

  lemma {:induction false} Preparing(db: Db, tools: Tools)
    requires StandsAt(db, Detected, tools)
    ensures StandsAt(Next(db, Now(PreparePolicyCheck(0))), PolicyCheck, tools)
  {
    WalkIsOpen(Begin(db, 0));
    CaseSteps(db, PreparePolicyCheck(0), Detected, tools, PolicyCheck, tools);
  }

  /* ----- A client's call that asks for an approval ----- */

  const CALL_KEY := KeyId(0, ClientKey(7))
  const ASKED := Result(NeedsApproval, 0, Some(0))

  function Call(r: Request): Step {
    Now(ExecuteTool(0, r, 7))
  }

  /** No call has been answered: at most one has failed, and left its key FAILED. */
  ghost predicate Unasked(t: Tools, r: Request) {
    && t.actions == [] && t.approvals == [] && t.notices == []
    && (CALL_KEY in t.keys ==> t.keys[CALL_KEY] == KeyRecord(KeyFailed, r, None))
  }

  /** The tables after a call that waits for an approval: its key keeps the status it had. */
  function Asking(t: Tools, r: Request): Tools {
    t.(actions := [Action(CALL_KEY, 0, r.tool, ApprovalRequired, AT_RISK, 0, None, None, Some(r), Some(FingerprintOf(OPENED)))],
       approvals := [Approval(0, 0, AwaitingDecision, TTL)],
       keys := t.keys[CALL_KEY := KeyRecord(if CALL_KEY in t.keys then KeyFailed else InProgress, r, Some(ASKED))],
       calls := t.calls + [ToolCall(CALL_KEY, 0, r.tool, Returned(NeedsApproval))])
  }

  lemma {:induction false} AskingForApproval(u: Work, r: Request)
    requires u.id == 0 && u.row == OPENED.(status := PolicyCheck, version := u.row.version)
    requires u.tools.actions == [] && u.tools.approvals == []
    ensures var ran := AskForApproval(u, r, CALL_KEY, TTL, 0);
            && ran == Finished(ran.work, ASKED)
            && ran.work == u.(row := ran.work.row, log := ran.work.log, tools := ran.work.tools)
            && ran.work.row == OPENED.(status := AwaitingApproval, version := ran.work.row.version)
            && ran.work.tools
               == u.tools.(actions := Asking(u.tools, r).actions, approvals := Asking(u.tools, r).approvals)
  {
    var ran := AskForApproval(u, r, CALL_KEY, TTL, 0);
    assert ran.work.tools.actions == Asking(u.tools, r).actions;
  }

  lemma {:induction false} ConcludingAsked(u: Work, r: Request, w: Work)
    requires u.id == 0 && Unasked(u.tools, r)
    requires w.tools == Opened(u, CALL_KEY, r).tools.(actions := Asking(u.tools, r).actions,
                                                      approvals := Asking(u.tools, r).approvals)
    ensures var done := Conclude(Opened(u, CALL_KEY, r), CALL_KEY, r, Finished(w, ASKED));
            done.Done? && done.work == w.(tools := Asking(u.tools, r))
  {
    var done := Conclude(Opened(u, CALL_KEY, r), CALL_KEY, r, Finished(w, ASKED));
    assert done.work.tools.keys == Asking(u.tools, r).keys;
  }

  /** The call waits for an approval, and so does the case. */
  predicate AsksFrom(u: Work, r: Request, done: Executed) {
    && done.Done? && done.work == u.(row := done.work.row, log := done.work.log, tools := Asking(u.tools, r))
    && done.work.row == OPENED.(status := AwaitingApproval, version := done.work.row.version)
  }

  lemma {:induction false} CallAsks(u: Work, r: Request)
    requires u.id == 0 && u.row == OPENED.(status := PolicyCheck, version := u.row.version) && Unasked(u.tools, r)
    requires Approvable(r)
    ensures AsksFrom(u, r, Execute(START.customers, u, r, ClientKey(7), None, ONE_RETRY, CALM, 0))
  {
    var begun := Opened(u, CALL_KEY, r);
    FirstAsks(begun, r);
    var v := Judged(begun, r, ONE_RETRY, CALM, 0);
    JudgedToAsk(u, r, v);
    CallIsAdmitted(u, r, v);
  }

  lemma {:induction false} JudgedToAsk(u: Work, r: Request, v: Verdict)
    requires u.id == 0 && u.row == OPENED.(status := PolicyCheck, version := u.row.version) && Unasked(u.tools, r)
    requires ValidInput(r) && v.allowed && v.requiresApproval
    ensures var begun := Opened(u, CALL_KEY, r);
            AsksFrom(u, r, Conclude(begun, CALL_KEY, r, RunJudged(START.customers, begun, r, CALL_KEY, None, v, TTL, CALM, 0)))
  {
    var begun := Opened(u, CALL_KEY, r);
    VerdictAsks(begun, r, v);
    AskingForApproval(begun, r);
    ConcludingAsked(u, r, AskForApproval(begun, r, CALL_KEY, TTL, 0).work);
  }

  lemma {:induction false} CallIsAdmitted(u: Work, r: Request, v: Verdict)
    requires u.row.merchant == 0 && !Terminal(u.row.status) && ValidInput(r) && Unasked(u.tools, r)
    requires v == Judged(Opened(u, CALL_KEY, r), r, ONE_RETRY, CALM, 0)
    ensures var begun := Opened(u, CALL_KEY, r);
            Execute(START.customers, u, r, ClientKey(7), None, ONE_RETRY, CALM, 0)
            == Conclude(begun, CALL_KEY, r, RunJudged(START.customers, begun, r, CALL_KEY, None, v, TTL, CALM, 0))
  {
  }

  lemma {:induction false} VerdictAsks(u: Work, r: Request, v: Verdict)
    requires ValidInput(r) && u.row.status.PolicyCheck? && v.allowed && v.requiresApproval
    ensures RunJudged(START.customers, u, r, CALL_KEY, None, v, TTL, CALM, 0) == AskForApproval(u, r, CALL_KEY, TTL, 0)
  {
  }

  lemma {:induction false} CallStepAsks(db: Db, r: Request, tools: Tools)
    requires StandsAt(db, PolicyCheck, tools) && Unasked(tools, r) && Approvable(r)
    ensures StandsAt(Next(db, Call(r)), AwaitingApproval, Asking(tools, r))
  {
    WorkedAsks(db, r, tools);
    CallSteps(db, r, Worked(db, Call(r).op, CALM), PolicyCheck, tools, AwaitingApproval, Asking(tools, r));
  }

  lemma {:induction false} WorkedAsks(db: Db, r: Request, tools: Tools)
    requires StandsAt(db, PolicyCheck, tools) && Unasked(tools, r) && Approvable(r)
    ensures AsksFrom(Begin(db, 0), r, Worked(db, Call(r).op, CALM))
  {
    CallAsks(Begin(db, 0), r);
    CallWorks(db, r);
  }

  lemma {:induction false} CallWorks(db: Db, r: Request)
    requires |db.cases| == 1 && db.cases[0].merchant in db.merchants
    ensures Worked(db, Call(r).op, CALM)
            == Execute(db.customers, Begin(db, 0), r, ClientKey(7), None, db.merchants[db.cases[0].merchant], CALM, db.clock)
  {
  }

  lemma {:induction false} CallAtPolicyCheck(steps: seq<Step>, r: Request, tools: Tools)
    requires StandsAt(Run(START, steps), Detected, tools) && Unasked(tools, r) && Approvable(r)
    ensures StandsAt(Run(START, steps + [Now(PreparePolicyCheck(0))] + [Call(r)]), AwaitingApproval, Asking(tools, r))
  {
    var checked := steps + [Now(PreparePolicyCheck(0))];
    OneMoreStep(START, steps, Now(PreparePolicyCheck(0)));
    Preparing(Run(START, steps), tools);
    OneMoreStep(START, checked, Call(r));
    CallStepAsks(Run(START, checked), r, tools);
  }

  lemma {:induction false} CallSteps(db: Db, r: Request, done: Executed, status: CaseStatus, tools: Tools,
                       status': CaseStatus, tools': Tools)
    requires StandsAt(db, status, tools) && Worked(db, Call(r).op, CALM) == done
    requires && done.Done? && done.work.tools == tools' && done.work.payments == db.payments
             && done.work.row == OPENED.(status := status', version := done.work.row.version, closedAt := None)
    ensures StandsAt(Next(db, Call(r)), status', tools')
  {
    CaseSteps(db, Call(r).op, status, tools, status', tools');
  }

  /* ----- An approval that never takes effect ----- */

  const LINK := Request(SendPaymentLink, NoInput)

  /** The call came too early: its key has failed without an answer. */
  const TOO_EARLY := NO_TOOLS.(
    keys := map[CALL_KEY := KeyRecord(KeyFailed, LINK, None)],
    calls := [ToolCall(CALL_KEY, 0, SendPaymentLink, Failed(InvalidCaseState))])

  lemma {:induction false} EarlyCall(u: Work)
    requires u.id == 0 && u.row == OPENED && u.tools == NO_TOOLS
    ensures Execute(START.customers, u, LINK, ClientKey(7), None, ONE_RETRY, CALM, 0)
            == Done(u.(tools := TOO_EARLY), Error(InvalidCaseState))
  {
    var begun := Opened(u, CALL_KEY, LINK);
    assert RunTool(START.customers, begun, LINK, CALL_KEY, None, ONE_RETRY, CALM, 0) == Raised(begun, InvalidCaseState);
    var done := Conclude(begun, CALL_KEY, LINK, Raised(begun, InvalidCaseState));
    assert done.work.tools.keys == TOO_EARLY.keys && done.work.tools.calls == TOO_EARLY.calls;
  }

  lemma {:induction false} EarlyCallSteps(db: Db)
    requires StandsAt(db, Detected, NO_TOOLS) && db.cases[0] == OPENED
    ensures StandsAt(Next(db, Call(LINK)), Detected, TOO_EARLY)
  {
    EarlyCall(Begin(db, 0));
    var done := Done(Begin(db, 0).(tools := TOO_EARLY), Error(InvalidCaseState));
    CallSteps(db, LINK, done, Detected, NO_TOOLS, Detected, TOO_EARLY);
  }

  /** A call that comes too early, and the same call again at the policy check. */
  function AskedRun(): seq<Step> {
    Opening(Declined) + [Call(LINK)] + [Now(PreparePolicyCheck(0))] + [Call(LINK)]
  }

  lemma {:induction false} AfterSecondCall()
    ensures StandsAt(Run(START, AskedRun()), AwaitingApproval, Asking(TOO_EARLY, LINK))
  {
    var early := Opening(Declined) + [Call(LINK)];
    Opens(Declined);
    OneMoreStep(START, Opening(Declined), Call(LINK));
    EarlyCallSteps(OneCase(Declined));
    CallAtPolicyCheck(early, LINK, TOO_EARLY);
  }

  lemma {:induction false} ApprovalReplays(db: Db)
    requires StandsAt(db, AwaitingApproval, Asking(TOO_EARLY, LINK))
    ensures var done := Worked(db, ApproveAction(0, 0), CALM);
            done.Done? && done.response == Replay(ASKED)
  {
    var op := ApproveAction(0, 0);
    assert FindApproval(Begin(db, 0), 0) == Some(0);
    assert AttemptOf(db, op).Attempt?;
    ApprovalIsReplayedIff(db, op, CALM);
    AttemptIsExecution(db, op, CALM);
  }

  /** A reachable store in which a pending, unexpired approval is given to an executable case
      that has not changed since, and is answered with its own request; and whatever is
      executed, approved, rejected or awaited from there on, the key runs nothing. */
  lemma {:induction false} AnApprovalWithoutEffect(more: seq<Step>)
    ensures var db := Run(START, AskedRun());
            && |db.cases| == 1 && Covers(db, 0, 0, 0) && Executable(db.cases[0].status)
            && Locks(db, ApproveAction(0, 0))
            && Worked(db, ApproveAction(0, 0), CALM).Done?
            && Worked(db, ApproveAction(0, 0), CALM).response == Replay(ASKED)
            && Runs(Run(db, more).tools.calls, CALL_KEY) == 0
  {
    var db := Run(START, AskedRun());
    AfterSecondCall();
    ApprovalReplays(db);
    RunKeepsKeysSafe(START, AskedRun());
    DefeatedKeyNeverRuns(db, more, CALL_KEY);
  }

  /* ----- An approval that its own row denies ----- */

  /** An approved call that gets past its key and is denied by policy is answered as blocked. */
  lemma {:induction false} DeniedApprovalIsBlocked(db: Db, op: Op, env: Env)
    requires Locks(db, op) && op.ApproveAction? && AttemptOf(db, op).Attempt? && Executable(db.cases[op.i].status)
    requires var at := AttemptOf(db, op);
             && Admission(at.start, at.request, KeyId(at.start.row.merchant, at.key), true).None?
             && !Judged(at.start, at.request, db.merchants[at.start.row.merchant], env, db.clock).allowed
    ensures var done := Worked(db, op, env);
            done.Done? && done.response.Answered? && done.response.result.outcome.RunBlocked?
  {
    var at, settings := AttemptOf(db, op), db.merchants[db.cases[op.i].merchant];
    AttemptIsExecution(db, op, env);
    DeniedIsBlocked(db.customers, at.start, at.request, at.key, at.grant, settings, env, db.clock);
  }

  lemma {:induction false} DeniedIsBlocked(customers: map<CustomerId, MerchantId>, u: Work, r: Request, key: Key,
                       grant: Option<Grant>, settings: PolicySettings, env: Env, now: Micros)
    requires Executable(u.row.status) && Admission(u, r, KeyId(u.row.merchant, key), grant.Some?).None?
    requires !Judged(u, r, settings, env, now).allowed
    ensures var done := Execute(customers, u, r, key, grant, settings, env, now);
            done.Done? && done.response.Answered? && done.response.result.outcome.RunBlocked?
  {
    OpenedJudgement(u, KeyId(u.row.merchant, key), r, settings, env, now);
  }

  const TENTH_OFF := Request(OfferDiscount, Discount(10.0))

  /** Ten per cent of the amount at risk, asked for, approved at once. */
  function DiscountRun(): seq<Step> {
    Opening(Declined) + [Now(PreparePolicyCheck(0))] + [Call(TENTH_OFF)]
  }

  lemma {:induction false} AfterDiscountCall()
    ensures StandsAt(Run(START, DiscountRun()), AwaitingApproval, Asking(NO_TOOLS, TENTH_OFF))
  {
    Opens(Declined);
    CallAtPolicyCheck(Opening(Declined), TENTH_OFF, NO_TOOLS);
  }

  /** A discount of 20000 paise within a budget of 50000, of which nothing is spent, is put up
      for approval and then denied by the budget rule, because its own row stands for 200000. */
  lemma {:induction false} ADiscountDeniedByItself()
    ensures var db := Run(START, DiscountRun());
            && |db.cases| == 1 && Covers(db, 0, 0, 0) && Locks(db, ApproveAction(0, 0))
            && DiscountBudget in Judged(Approving(Begin(db, 0), 0, 0), TENTH_OFF, ONE_RETRY, CALM, 0).rules
            && var done := Worked(db, ApproveAction(0, 0), CALM);
               done.Done? && done.response.Answered? && done.response.result.outcome.RunBlocked?
  {
    var db := Run(START, DiscountRun());
    AfterDiscountCall();
    DiscountDenied(db);
  }

  lemma {:induction false} DiscountDenied(db: Db)
    requires StandsAt(db, AwaitingApproval, Asking(NO_TOOLS, TENTH_OFF))
    ensures DiscountBudget in Judged(Approving(Begin(db, 0), 0, 0), TENTH_OFF, ONE_RETRY, CALM, 0).rules
    ensures var done := Worked(db, ApproveAction(0, 0), CALM);
            done.Done? && done.response.Answered? && done.response.result.outcome.RunBlocked?
  {
    var u, op := Begin(db, 0), ApproveAction(0, 0);
    assert FindApproval(u, 0) == Some(0);
    assert AttemptOf(db, op) == Attempt(Approving(u, 0, 0), TENTH_OFF, ClientKey(7), Some(Grant(0, 0)));
    SumHasRow(u.tools.actions, 0, 0, 0);
    ApprovedDiscountCountsItself(u, 0, 0, ONE_RETRY, CALM, 0);
    DeniedApprovalIsBlocked(db, op, CALM);
  }

  /** The planned row and its approval, after the case was processed. */
  function PlannedFor(kind: ActionKind): Tools {
    NO_TOOLS.(
      actions := [Action(KeyId(0, PlannedKey(0, kind)), 0, kind, ApprovalRequired, AT_RISK, 0, None, None,
                         Some(PlannedRequest(kind, 0)), Some(FingerprintOf(OPENED)))],
      approvals := [Approval(0, 0, AwaitingDecision, TTL)])
  }

  lemma {:induction false} ProcessingAsks(u: Work)
    requires u.id == 0 && u.row == OPENED && u.tools == NO_TOOLS
    ensures var w := ProcessLocked(u, ONE_RETRY, CALM, 0);
            && w.row == OPENED.(status := AwaitingApproval, version := w.row.version)
            && w.tools == PlannedFor(ChosenAction(u.row, u.payments)) && w.payments == u.payments
  {
    WalkIsOpen(u);
    var v, kind := Walked(u, 0), ChosenAction(u.row, u.payments);
    assert ChosenAction(v.row, v.payments) == kind;
    FirstAsks(v, PlannedRequest(kind, 0));
    assert ProcessDecision(v, ONE_RETRY, CALM, 0) == Ask;
    PlanningAsks(v, kind);
    assert ProcessLocked(u, ONE_RETRY, CALM, 0) == Steered(Recorded(v, kind, Ask, TTL, 0), Ask, 0);
  }

  lemma {:induction false} PlanningAsks(v: Work, kind: ActionKind)
    requires v.id == 0 && v.row == OPENED.(status := PolicyCheck, version := v.row.version) && v.tools == NO_TOOLS
    ensures Recorded(v, kind, Ask, TTL, 0) == v.(tools := PlannedFor(kind))
  {
    assert Recorded(v, kind, Ask, TTL, 0).tools.actions == PlannedFor(kind).actions;
    assert Recorded(v, kind, Ask, TTL, 0).tools.approvals == PlannedFor(kind).approvals;
  }

  function ProcessedRun(code: FailureCode): seq<Step> {
    Opening(code) + [Now(ProcessCase(0))]
  }

  function PlannedKind(code: FailureCode): ActionKind {
    if code in RETRYABLE_FAILURES then RetryLater else SendPaymentLink
  }

  lemma {:induction false} AfterProcessing(code: FailureCode)
    ensures var db := Run(START, ProcessedRun(code));
            StandsAt(db, AwaitingApproval, PlannedFor(PlannedKind(code)))
            && db.payments == OneCase(code).payments && db.webhooks == OneCase(code).webhooks
  {
    var db := OneCase(code);
    Opens(code);
    OneMoreStep(START, Opening(code), Now(ProcessCase(0)));
    ProcessingAsks(Begin(db, 0));
    CaseSteps(db, ProcessCase(0), Detected, NO_TOOLS, AwaitingApproval, PlannedFor(PlannedKind(code)));
  }

  /** With a limit of one, the only retry of a case is put up for approval and then denied by
      the retry limit, because its own row is counted. */
  lemma {:induction false} ARetryDeniedByItself()
    ensures var db, r := Run(START, ProcessedRun(TemporaryBankError)), PlannedRequest(RetryLater, 0);
            && |db.cases| == 1 && Covers(db, 0, 0, 0) && Locks(db, ApproveAction(0, 0))
            && RetryLimit in Judged(Approving(Begin(db, 0), 0, 0), r, ONE_RETRY, CALM, 0).rules
            && var done := Worked(db, ApproveAction(0, 0), CALM);
               done.Done? && done.response.Answered? && done.response.result.outcome.RunBlocked?
  {
    AfterProcessing(TemporaryBankError);
    RetryDenied(Run(START, ProcessedRun(TemporaryBankError)));
  }

  lemma {:induction false} RetryDenied(db: Db)
    requires StandsAt(db, AwaitingApproval, PlannedFor(RetryLater))
    ensures RetryLimit in Judged(Approving(Begin(db, 0), 0, 0), PlannedRequest(RetryLater, 0), ONE_RETRY, CALM, 0).rules
    ensures var done := Worked(db, ApproveAction(0, 0), CALM);
            done.Done? && done.response.Answered? && done.response.result.outcome.RunBlocked?
  {
    var u, op := Begin(db, 0), ApproveAction(0, 0);
    assert FindApproval(u, 0) == Some(0);
    assert AttemptOf(db, op)
           == Attempt(Approving(u, 0, 0), PlannedRequest(RetryLater, 0), PlannedKey(0, RetryLater), Some(Grant(0, 0)));
    ApprovedRetryCountsItself(u, 0, 0, ONE_RETRY, CALM, 0);
    DeniedApprovalIsBlocked(db, op, CALM);
  }

  /* ----- A full capture that is not booked ----- */

  /** While a payment link waits for its approval, the payment is captured after all. */
  function CapturedRun(): seq<Step> {
    ProcessedRun(Declined) + [Now(Ingest(CAPTURE_KEY, 0, Delivery(CapturedEvent, None)))] + [Now(ProcessEvent(CAPTURE_KEY))]
  }

  lemma {:induction false} Captures(db: Db, tools: Tools)
    requires StandsAt(db, AwaitingApproval, tools) && CAPTURE_KEY !in db.webhooks
    requires db.payments == OneCase(Declined).payments
    ensures var delivered := Next(db, Now(Ingest(CAPTURE_KEY, 0, Delivery(CapturedEvent, None))));
            var db' := Next(delivered, Now(ProcessEvent(CAPTURE_KEY)));
            && StandsAt(db', AwaitingApproval, tools)
            && db'.payments == map[FAILED_PAYMENT := Payment(0, None, AT_RISK, 0, Captured, Some(Declined), Some(0))]
  {
    var e := Delivery(CapturedEvent, None);
    var delivered := db.(webhooks := db.webhooks[CAPTURE_KEY := Webhook(0, e, Received)]);
    assert Next(db, Now(Ingest(CAPTURE_KEY, 0, e))) == delivered;
    assert Next(delivered, Now(ProcessEvent(CAPTURE_KEY))) == EventProcessed(delivered, CAPTURE_KEY, 0);
  }

  lemma {:induction false} AfterCapture()
    ensures var db := Run(START, CapturedRun());
            && StandsAt(db, AwaitingApproval, PlannedFor(SendPaymentLink))
            && db.payments == map[FAILED_PAYMENT := Payment(0, None, AT_RISK, 0, Captured, Some(Declined), Some(0))]
  {
    var ingest := Now(Ingest(CAPTURE_KEY, 0, Delivery(CapturedEvent, None)));
    AfterProcessing(Declined);
    OneMoreStep(START, ProcessedRun(Declined), ingest);
    OneMoreStep(START, ProcessedRun(Declined) + [ingest], Now(ProcessEvent(CAPTURE_KEY)));
    Captures(Run(START, ProcessedRun(Declined)), PlannedFor(SendPaymentLink));
  }

  /** The whole amount at risk has been captured, its verification reports a match, and the
      store stays as it is: nothing recovered, the case still waiting. */
  lemma {:induction false} AFullCaptureUnbooked()
    ensures var db, event := Run(START, CapturedRun()), Some(CAPTURE_KEY);
            && |db.cases| == 1 && db.cases[0].status.AwaitingApproval? && db.cases[0].amountRecovered == 0
            && Reported(db, Begin(db, 0), None, event) == MatchReport(true, AT_RISK, None)
            && Next(db, Now(VerifyCase(0, None, event))) == db
  {
    AfterCapture();
    CaptureUnbooked(Run(START, CapturedRun()), PlannedFor(SendPaymentLink));
  }

  lemma {:induction false} CaptureUnbooked(db: Db, tools: Tools)
    requires StandsAt(db, AwaitingApproval, tools)
    requires db.payments == map[FAILED_PAYMENT := Payment(0, None, AT_RISK, 0, Captured, Some(Declined), Some(0))]
    ensures Reported(db, Begin(db, 0), None, Some(CAPTURE_KEY)) == MatchReport(true, AT_RISK, None)
    ensures Next(db, Now(VerifyCase(0, None, Some(CAPTURE_KEY)))) == db
  {
    var u, s := Begin(db, 0), Now(VerifyCase(0, None, Some(CAPTURE_KEY)));
    MatchIffEvidence(db, u, FAILED_PAYMENT);
    FullCaptureNeedsVerifying(db, u, None, Some(CAPTURE_KEY), ONE_RETRY, CALM, 0);
    assert Ticked(db, s) == db;
    assert Next(db, s) == Commit(db, 0, u);
    assert db.cases[0 := db.cases[0]] == db.cases && db.audit + Tag(0, []) == db.audit;
  }
}
