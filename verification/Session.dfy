/** The services as they run: a session that locks one case, changes its columns and the
    tables in place, and commits or rolls back. Every method is tied to the function that
    specifies it. */
module Sessions {
  import opened Domain
  import opened StateMachine
  import opened Store
  import opened Policy
  import opened PolicyContext
  import opened Processor
  import opened Verification
  import opened Execution
  import opened Events
  import opened Engine
  import opened Planning
  import opened Outcomes
  import opened ToolOutcomes
  import opened Lifecycle
  import opened EventOutcomes

  predicate AlreadyPast(current: CaseStatus, target: CaseStatus) {
    OnTheWay(current) && Rank(current) > Rank(target)
  }

  class Session {
    /** What is committed. */
    var store: Db

    /** The locked case: its fixed columns, and those that the services assign. */
    var id: nat
    var fixed: Case
    var status: CaseStatus
    var version: nat
    var closedAt: Option<Micros>
    var recovered: nat
    var mismatch: Option<Mismatch>
    var verifiedPayment: Option<PaymentId>
    var verifiedEvent: Option<EventKey>
    var log: seq<AuditEntry>

    /** The other tables, as this transaction sees them. */
    var actions: seq<Action>
    var approvals: seq<Approval>
    var keys: map<KeyId, KeyRecord>
    var calls: seq<ToolCall>
    var notices: seq<Notice>
    var payments: map<PaymentId, Payment>
    var creditedFrom: map<PaymentId, nat>

    function Row(): Case
      reads this
    {
      fixed.(status := status, version := version, closedAt := closedAt, amountRecovered := recovered,
             mismatch := mismatch, verifiedPayment := verifiedPayment, verifiedEvent := verifiedEvent)
    }

    function Tables(): Tools
      reads this
    {
      Tools(actions, approvals, keys, calls, notices)
    }

    function Current(): Work
      reads this
    {
      Work(id, Row(), log, Tables(), payments, creditedFrom)
    }

    constructor (db: Db)
      ensures store == db
    {
      store := db;
      id, log := 0, [];
      fixed := Case(0, 0, None, Detected, 0, 0, 0, 1, 0, None, None, None, None);
      status, version, closedAt, recovered := Detected, 1, None, 0;
      mismatch, verifiedPayment, verifiedEvent := None, None, None;
      actions, approvals, keys, calls, notices := [], [], map[], [], [];
      payments, creditedFrom := map[], map[];
    }

    /* ----- Transactions ----- */

    /** Locks a case and opens the tables. */
    method Lock(i: nat)
      requires i < |store.cases|
      modifies this
      ensures store == old(store) && Current() == Begin(store, i)
    {
      OpenTables();
      id, log := i, [];
      Load(store.cases[i]);
    }

    method Load(c: Case)
      modifies `fixed, `status, `version, `closedAt, `recovered, `mismatch, `verifiedPayment, `verifiedEvent
      ensures Row() == c
    {
      fixed, status, version, closedAt, recovered := c, c.status, c.version, c.closedAt, c.amountRecovered;
      mismatch, verifiedPayment, verifiedEvent := c.mismatch, c.verifiedPayment, c.verifiedEvent;
    }

    method OpenTables()
      modifies `actions, `approvals, `keys, `calls, `notices, `payments, `creditedFrom
      ensures Tables() == store.tools && payments == store.payments && creditedFrom == store.creditedFrom
    {
      actions, approvals, keys := store.tools.actions, store.tools.approvals, store.tools.keys;
      calls, notices := store.tools.calls, store.tools.notices;
      payments, creditedFrom := store.payments, store.creditedFrom;
    }

    method CommitWork()
      requires id < |store.cases|
      modifies this`store
      ensures store == Commit(old(store), id, Current())
    {
      store := store.(cases := store.cases[id := Row()],
                      audit := store.audit + Tag(id, log),
                      tools := Tables(),
                      payments := payments,
                      creditedFrom := creditedFrom);
    }

    /* ----- The case ----- */

    /** transition_case: an illegal transition is audited and refused. */
    method Transition(to: CaseStatus, now: Micros) returns (ok: bool)
      modifies `status, `version, `closedAt, `log
      ensures ok == Legal(old(status), to)
      ensures Current() == if ok then old(Current()).Move(to, now) else old(Current()).Refuse(to)
    {
      if !Legal(status, to) {
        log := log + [MoveRejected(status, to)];
        return false;
      }
      Enter(to, now);
      return true;
    }

    method Enter(to: CaseStatus, now: Micros)
      requires Legal(status, to)
      modifies `status, `version, `closedAt, `log
      ensures Current() == old(Current()).Move(to, now)
    {
      var previous := status;
      status := to;
      version := version + 1;
      closedAt := if Terminal(to) then Some(now) else None;
      assert Row() == old(Row()).(status := to, version := version, closedAt := closedAt);
      log := log + [Moved(previous, to, version, now)];
    }

    /** transition_case where the edge is known to be legal. */
    method MoveTo(to: CaseStatus, now: Micros)
      requires Legal(status, to)
      modifies `status, `version, `closedAt, `log
      ensures Current() == old(Current()).Move(to, now) && status == to
    {
      var _ := Transition(to, now);
    }

    /** walk_to_policy_check: one stage after the other, until one is refused. */
    method WalkToPolicyCheck(now: Micros) returns (ok: bool)
      modifies `status, `version, `closedAt, `log
      ensures ok == OnTheWay(old(status)) && Current() == Walk(old(Current()), now)
      ensures var c := old(Row());
              if BeforeCheck(c.status) then Row() == Climbed(c, 6)
              else Row() == c && log == old(log) + if AtOrPastCheck(c.status) then [] else [MoveRejected(c.status, Triaged)]
    {
      ghost var start := Current();
      WalkEnds(start, now);
      for k := 0 to STAGE_COUNT
        invariant start == old(Current())
        invariant if OnTheWay(start.row.status) then OnTheWay(status) && Rank(status) >= k
            && Walked(Current(), now) == Walked(start, now)
                  else k == 0 && Current() == start
      {
        ok := WalkTo(k, now);
        if !ok {
          return;
        }
      }
      ok := true;
    }

    /** One stage of the walk, unless the case is there or past it. */
    method WalkTo(k: nat, now: Micros) returns (ok: bool)
      requires k < STAGE_COUNT && (if OnTheWay(status) then Rank(status) >= k else k == 0)
      modifies `status, `version, `closedAt, `log
      ensures ok == OnTheWay(old(status))
      ensures ok ==> OnTheWay(status) && Rank(status) >= k + 1 && Walked(Current(), now) == Walked(old(Current()), now)
      ensures !ok ==> Current() == old(Current()).Refuse(Triaged)
    {
      var target := Stage(k);
      if status == target || AlreadyPast(status, target) {
        return true;
      }
      assert OnTheWay(status) ==> target == NextStage(status);
      ok := Transition(target, now);
    }

    /** _record_planned_action: the first row of the planned key stands. */
    method RecordPlannedAction(kind: ActionKind, rowStatus: ActionStatus, request: Option<Request>,
            now: Micros) returns (a: nat)
      modifies this`actions
      ensures Current() == Plan(old(Current()), kind, rowStatus, request, now)
      ensures a == PlannedAt(old(Current()), kind) && a < |actions|
    {
      var key := PlannedKeyId(Current(), kind);
      var found := FindAction(actions, key);
      if found.Some? {
        return found.value;
      }
      a := |actions|;
      actions := actions + [Action(key, id, kind, rowStatus, fixed.amountAtRisk, now, None, None, request, None)];
    }

    /** A pending approval of row a, which remembers the case's fingerprint. */
    method RequestApproval(a: nat, ttl: int, now: Micros) returns (n: nat)
      requires a < |actions|
      modifies this`actions, this`approvals
      ensures Current() == AskApproval(old(Current()), a, ttl, now) && n == old(|approvals|)
    {
      n := |approvals|;
      approvals := approvals + [Approval(id, a, AwaitingDecision, now + ttl)];
      actions := actions[a := actions[a].(fingerprint := Some(FingerprintOf(Row())))];
    }

    /** process_locked_case. */
    method ProcessLockedCase(settings: PolicySettings, env: Env, now: Micros)
      modifies `status, `version, `closedAt, `log, `actions, `approvals
      ensures Current() == ProcessLocked(old(Current()), settings, env, now)
      ensures if Rank(old(status)) <= Rank(PolicyCheck) then ProcessedTo(old(Current()), Current(), settings, env, now)
              else Current() == old(Current())
    {
      ghost var start := Current();
      if Rank(status) <= Rank(PolicyCheck) {
        ProcessingEnds(start, settings, env, now);
      }
      if SettledForProcessing(status) {
        return;
      }
      var walked := WalkToPolicyCheck(now);
      assert Current() == Walked(start, now);
      if status != PolicyCheck {
        return;
      }
      ghost var here := Current();
      var kind := ChosenAction(Row(), payments);
      var v := EvaluateAction(BuildContext(Row(), id, Tables(), settings, env, now), Proposal(kind, None, None));
      assert Decide(v) == ProcessDecision(here, settings, env, now);
      ActOn(v, kind, settings.approvalTtl, now);
      assert Current() == ProcessDecided(here, Decide(v), settings.approvalTtl, now);
    }

    /** What processing does with the verdict on its planned action. */
    method ActOn(v: Policy.Verdict, kind: ActionKind, ttl: int, now: Micros)
      requires status == PolicyCheck && kind == ChosenAction(Row(), payments)
      modifies `status, `version, `closedAt, `log, `actions, `approvals
      ensures Current() == ProcessDecided(old(Current()), Decide(v), ttl, now)
    {
      RecordDecision(v, kind, ttl, now);
      Steer(v, now);
    }

    method RecordDecision(v: Policy.Verdict, kind: ActionKind, ttl: int, now: Micros)
      modifies `actions, `approvals
      ensures Current() == Recorded(old(Current()), kind, Decide(v), ttl, now)
    {
      if !v.allowed {
        var _ := RecordPlannedAction(kind, Blocked, None, now);
      } else if v.requiresApproval {
        var a := RecordPlannedAction(kind, ApprovalRequired, Some(PlannedRequest(kind, now)), now);
        var _ := RequestApproval(a, ttl, now);
      } else {
        var _ := RecordPlannedAction(kind, Pending, None, now);
      }
    }

    method Steer(v: Policy.Verdict, now: Micros)
      requires status == PolicyCheck
      modifies `status, `version, `closedAt, `log
      ensures Current() == Steered(old(Current()), Decide(v), now)
    {
      if !v.allowed {
        MoveTo(if SuspiciousSource in v.rules then Escalated else Stopped, now);
      } else if v.requiresApproval {
        MoveTo(AwaitingApproval, now);
      } else {
        MoveTo(Executing, now);
        MoveTo(ActionCompleted, now);
      }
    }

    /* ----- Verification ----- */

    /** _ensure_verifying. */
    method DriveToVerifying(settings: PolicySettings, env: Env, now: Micros)
      modifies `status, `version, `closedAt, `log, `actions, `approvals
      ensures Current() == EnsureVerifying(old(Current()), settings, env, now)
    {
      if status == Verifying || status == Recovered {
        return;
      }
      ghost var start := Current();
      if status != ActionCompleted {
        ProcessLockedCase(settings, env, now);
      }
      ghost var driven := Current();
      assert driven == if start.row.status == ActionCompleted then start else ProcessLocked(start, settings, env, now);
      if status == ActionCompleted {
        MoveTo(Verifying, now);
      }
      assert Current() == if driven.row.status == ActionCompleted then driven.Move(Verifying, now) else driven;
    }

    method SettleAs(verdict: CaseStatus, now: Micros)
      requires verdict == Recovered || verdict == NotRecovered
      modifies `status, `version, `closedAt, `log
      ensures Current() == Settle(old(Current()), verdict, now)
    {
      if status == Verifying {
        MoveTo(verdict, now);
      }
    }

    method NoteMismatch(m: Option<Mismatch>)
      modifies `mismatch
      ensures Current() == old(Current()).Note(m)
    {
      mismatch := m;
    }

    /** Books an amount of a payment on the case, and audits the change. */
    method Book(p: PaymentId, event: Option<EventKey>, amount: nat, m: Option<Mismatch>)
      requires p in payments
      modifies `recovered, `verifiedPayment, `verifiedEvent, `mismatch, `log, `creditedFrom
      ensures Current() == old(Current()).Credit(p, event, amount, m)
    {
      AuditAmount(amount);
      SetCredit(amount, p, event, m);
      creditedFrom := creditedFrom[p := payments[p].amount];
    }

    method SetCredit(amount: nat, p: PaymentId, event: Option<EventKey>, m: Option<Mismatch>)
      modifies `recovered, `verifiedPayment, `verifiedEvent, `mismatch
      ensures Row() == old(Row()).(amountRecovered := amount, verifiedPayment := Some(p), verifiedEvent := event,
          mismatch := m)
    {
      recovered, verifiedPayment, verifiedEvent, mismatch := amount, Some(p), event, m;
    }

    method AuditAmount(amount: nat)
      modifies `log
      ensures log == if recovered == amount then old(log) else old(log) + [AmountUpdated(recovered, amount)]
    {
      if recovered != amount {
        log := log + [AmountUpdated(recovered, amount)];
      }
    }

    /** _apply_success and _persist_failure. */
    method ApplyVerdict(p: PaymentId, event: Option<EventKey>, m: Match, now: Micros)
      requires p in payments
      modifies `status, `version, `closedAt, `log, `recovered, `verifiedPayment, `verifiedEvent, `mismatch, `creditedFrom
      ensures Current() == ApplyMatch(old(Current()), p, event, m, now)
    {
      match m {
        case Mismatched(reason) =>
          NoteMismatch(Some(reason));
          SettleAs(NotRecovered, now);
        case PartialCapture(captured) =>
          Book(p, event, captured, Some(UnknownMismatch));
          SettleAs(NotRecovered, now);
        case FullCapture(credited) =>
          if status == Verifying {
            Book(p, event, credited, None);
            SettleAs(Recovered, now);
          }
      }
    }

    /** verify_case. */
    method VerifyCase(payment: Option<PaymentId>, event: Option<EventKey>, settings: PolicySettings, env: Env, now: Micros)
      returns (report: MatchReport)
      modifies `status, `version, `closedAt, `log, `recovered, `verifiedPayment, `verifiedEvent, `mismatch, `creditedFrom,
               `actions, `approvals
      ensures Current() == Verify(store, old(Current()), payment, event, settings, env, now)
      ensures report == Reported(store, old(Current()), payment, event)
      ensures old(status) != Verifying ==> VerifiedTo(store, old(Current()), Row(), payment, event, settings, env, now)
    {
      if status != Verifying {
        VerificationEnds(store, Current(), payment, event, settings, env, now);
      }
      if status == Stopped {
        return MatchReport(false, recovered, Some(UnknownMismatch));
      }
      var target := ResolvePayment(Current(), payment);
      if target.None? {
        MissPayment(now);
        return MatchReport(false, 0, Some(PaymentMismatch));
      }
      report := VerifyAgainst(target.value, event, settings, env, now);
    }

    /** There is no payment to verify the case with. */
    method MissPayment(now: Micros)
      modifies `status, `version, `closedAt, `log, `mismatch
      ensures Current() == Settle(old(Current()).Note(Some(PaymentMismatch)), NotRecovered, now)
    {
      NoteMismatch(Some(PaymentMismatch));
      SettleAs(NotRecovered, now);
    }

    method VerifyAgainst(p: PaymentId, event: Option<EventKey>, settings: PolicySettings, env: Env, now: Micros)
      returns (report: MatchReport)
      requires p in payments
      modifies `status, `version, `closedAt, `log, `recovered, `verifiedPayment, `verifiedEvent, `mismatch, `creditedFrom,
               `actions, `approvals
      ensures Current() == VerifyPayment(store, old(Current()), p, event, settings, env, now)
      ensures report == ReportedOn(store, old(Current()), p, event)
    {
      var duplicate := Duplicate(store, Current(), p, event);
      if duplicate.Some? {
        NoteMismatch(duplicate);
        return MatchReport(false, recovered, duplicate);
      }
      if status == Recovered {
        return MatchReport(true, recovered, None);
      }
      report := JudgeAgainst(p, event, settings, env, now);
    }

    method JudgeAgainst(p: PaymentId, event: Option<EventKey>, settings: PolicySettings, env: Env, now: Micros)
      returns (report: MatchReport)
      requires p in payments
      modifies `status, `version, `closedAt, `log, `recovered, `verifiedPayment, `verifiedEvent, `mismatch, `creditedFrom,
               `actions, `approvals
      ensures var m, driven := EvaluateMatch(store, old(Current()), p), EnsureVerifying(old(Current()), settings, env, now);
              driven.payments == payments && Current() == ApplyMatch(driven, p, event, m, now) && report == ReportOf(m)
    {
      var m := EvaluateMatch(store, Current(), p);
      report := ReportOf(m);
      DriveToVerifying(settings, env, now);
      ApplyVerdict(p, event, m, now);
    }

    /* ----- Tool execution ----- */

    /** _upsert_action: the row that is re-entered, or found by its key, or a new one. */
    method UpsertAction(kind: ActionKind, key: KeyId, existing: Option<nat>, rowStatus: ActionStatus,
                        request: Option<Request>, now: Micros) returns (a: nat)
      modifies `actions
      ensures Current() == Upsert(old(Current()), kind, key, existing, rowStatus, request, now)
      ensures a == UpsertAt(old(Current()), key, existing) && a < |actions|
    {
      var found := ExistingRow(key, existing);
      var row := RowFor(found, kind, key, rowStatus, request, now);
      a := if found.Some? then found.value else |actions|;
      PutRow(a, row);
    }

    method ExistingRow(key: KeyId, existing: Option<nat>) returns (found: Option<nat>)
      ensures found == ExistingAction(Current(), key, existing)
    {
      found := if existing.Some? && existing.value < |actions| then existing else FindAction(actions, key);
    }

    method RowFor(found: Option<nat>, kind: ActionKind, key: KeyId, rowStatus: ActionStatus, request: Option<Request>,
                  now: Micros) returns (row: Action)
      requires found.Some? ==> found.value < |actions|
      ensures row == if found.None? then Action(key, id, kind, rowStatus, fixed.amountAtRisk, now, None, None, request, None)
                     else actions[found.value].(status := rowStatus,
                                                request := if request.Some? then request else actions[found.value].request)
    {
      if found.None? {
        return Action(key, id, kind, rowStatus, fixed.amountAtRisk, now, None, None, request, None);
      }
      row := actions[found.value].(status := rowStatus);
      if request.Some? {
        row := row.(request := request);
      }
    }

    /** Replaces row a, or adds it at the end. */
    method PutRow(a: nat, row: Action)
      requires a <= |actions|
      modifies `actions
      ensures Current() == WithTools(old(Current()), old(Tables()).(actions := Touched(old(actions), a, row)))
      ensures a < |actions|
    {
      if a < |actions| {
        actions := actions[a := row];
      } else {
        actions := actions + [row];
      }
    }

    /** The handler of a tool. A crash leaves the transaction to be rolled back. */
    method CallHandler(customers: map<CustomerId, MerchantId>, r: Request, env: Env, now: Micros) returns (h: Handled)
      requires ValidInput(r)
      modifies `notices, `payments
      ensures h == RunHandler(customers, old(Current()), r, env, now)
      ensures h.Handled? ==> Current() == h.work
    {
      match r.tool {
        case RetryNow => h := RetryPayment(env);
        case SendPaymentLink =>
          h := if env.reply.LinkMade?
          then Handled(Current(), true, Some(env.reply.link), Some(env.reply.linkAmount), None, Some(ActionCompleted))
          else Execution.Refused(Current());
        case SendReminder => h := SendNotification(customers, now);
        case OfferDiscount =>
          var amount := DiscountPaise(fixed.amountAtRisk, r.input.percent);
          h := if amount < 0 then HandlerCrash else Handled(Current(), true, None, Some(amount), None,
              Some(ActionCompleted));
        case RetryLater => h := Handled(Current(), true, None, None, None, Some(RetryScheduled));
        case Escalate => h := Handled(Current(), true, None, None, None, Some(Escalated));
        case DoNothing => h := Handled(Current(), true, None, None, None, Some(Stopped));
      }
    }

    /** handle_retry_payment books the provider's new payment. */
    method RetryPayment(env: Env) returns (h: Handled)
      modifies `payments
      ensures h == HandleRetryPayment(old(Current()), env)
      ensures h.Handled? ==> Current() == h.work
    {
      if fixed.payment.None? || fixed.payment.value !in payments || !env.reply.PaymentMade? {
        return Execution.Refused(Current());
      }
      var r := env.reply;
      var p := PaymentId(fixed.merchant, r.provider, r.reference);
      if p in payments {
        return HandlerCrash;
      }
      var row := Payment(payments[fixed.payment.value].customer, r.order, r.amount, r.currency, r.status, r.failure,
                         if r.status == Captured then Some(r.occurredAt) else None);
      payments := payments[p := row];
      h := Handled(Current(), true, Some(r.reference), Some(r.amount), Some(p), Some(ActionCompleted));
    }

    /** handle_send_notification adds one notification row. */
    method SendNotification(customers: map<CustomerId, MerchantId>, now: Micros) returns (h: Handled)
      modifies `notices
      ensures h == HandleSendNotification(customers, old(Current()), now)
      ensures h.Handled? ==> Current() == h.work
    {
      if fixed.customer !in customers {
        return Execution.Refused(Current());
      }
      notices := notices + [Notice(fixed.merchant, fixed.customer, id, now)];
      h := Handled(Current(), true, None, None, None, Some(ActionCompleted));
    }

    /** apply_case_outcome. */
    method ApplyCaseOutcome(target: CaseStatus, now: Micros)
      requires OutcomeTarget(target)
      modifies `status, `version, `closedAt, `log
      ensures Current() == ApplyOutcome(old(Current()), target, now)
    {
      if status == target {
        return;
      }
      if target == ActionCompleted {
        CompleteCase(now);
      } else if target == RetryScheduled {
        if status == PolicyCheck {
          MoveTo(RetryScheduled, now);
        }
      } else if status == PolicyCheck || status == AwaitingApproval || status == ExecutionFailed || status == NotRecovered {
        MoveTo(target, now);
      }
    }

    method CompleteCase(now: Micros)
      requires status != ActionCompleted
      modifies `status, `version, `closedAt, `log
      ensures Current() == ApplyOutcome(old(Current()), ActionCompleted, now)
    {
      if status == PolicyCheck || status == AwaitingApproval {
        MoveTo(Executing, now);
      }
      if status == Executing {
        MoveTo(ActionCompleted, now);
      }
    }

    /** Writes what the handler reported into its action row. */
    method CompleteRow(a: nat, h: Handled)
      requires h.Handled? && a < |actions|
      modifies `actions
      ensures Current() == Complete(old(Current()), a, h)
    {
      var row := actions[a];
      row := row.(reference := h.reference);
      if h.amount.Some? {
        row := row.(amount := h.amount.value);
      }
      if h.newPayment.Some? {
        row := row.(newPayment := h.newPayment);
      }
      row := row.(status := if h.ok then Succeeded else ActionFailed);
      actions := actions[a := row];
    }

    /** The side effect itself: the row is started, the handler called, the case moved on. */
    method PerformTool(customers: map<CustomerId, MerchantId>, r: Request, key: KeyId, grant: Option<Grant>,
                       env: Env, now: Micros) returns (ran: Ran)
      requires ValidInput(r)
      modifies `status, `version, `closedAt, `log, `actions, `notices, `payments
      ensures ran == Perform(customers, old(Current()), r, key, grant, env, now)
      ensures !ran.Lost? ==> Current() == ran.work
      ensures Executable(old(status)) && !ran.Lost? ==>
                RanOn(customers, old(Current()), Current(), r, key, UpsertAt(old(Current()), key, Reentered(grant)),
                    ran.Finished? && ran.result.outcome.RunSucceeded?, env, now)
    {
      ghost var start := Current();
      if Executable(status) {
        PerformLeaves(customers, start, r, key, grant, env, now);
      }
      var a := StartTool(r, key, Reentered(grant), now);
      ghost var v := Current();
      var h := CallHandler(customers, r, env, now);
      if h.HandlerCrash? {
        return Lost;
      }
      HandlerKeeps(customers, v, r, env, now);
      ran := FinishTool(v, h, a, r, grant, now);
      assert ran == FinishRun(v, h, UpsertAt(start, key, Reentered(grant)), Quietly(r.tool), grant, now);
    }

    method StartTool(r: Request, key: KeyId, existing: Option<nat>, now: Micros) returns (a: nat)
      modifies `status, `version, `closedAt, `log, `actions
      ensures Current() == Started(old(Current()), r, key, existing, now)
      ensures a == UpsertAt(old(Current()), key, existing) && a < |actions|
    {
      a := UpsertAction(r.tool, key, existing, Running, Some(r), now);
      if !Quietly(r.tool) && (status == PolicyCheck || status == AwaitingApproval) {
        MoveTo(Executing, now);
      }
    }

    method FinishTool(ghost v: Work, h: Handled, a: nat, r: Request, grant: Option<Grant>, now: Micros) returns (ran: Ran)
      requires HandledFrom(v, h, Quietly(r.tool)) && a < |v.tools.actions| && Current() == h.work
      modifies `status, `version, `closedAt, `log, `actions
      ensures ran == FinishRun(v, h, a, Quietly(r.tool), grant, now) && Current() == ran.work
    {
      CompleteRow(a, h);
      if h.ok {
        ApplyCaseOutcome(h.target.value, now);
      } else if status == Executing {
        MoveTo(ExecutionFailed, now);
      }
      ran := Finished(Current(), ResultOf(h, a, grant));
    }

    /** _assert_usable_approval, as far as the transaction outlives it. */
    method CheckApproval(g: Grant, now: Micros) returns (e: Option<ErrorCode>)
      ensures e == GrantError(Current(), g, now)
    {
      if g.approval >= |approvals| || approvals[g.approval].caseId != id {
        return Some(ApprovalNotFound);
      }
      var approval := approvals[g.approval];
      if approval.status != Granted {
        return Some(ApprovalNotApproved);
      }
      if approval.expiresAt <= now {
        return Some(ApprovalExpired);
      }
      if g.action < |actions| && actions[g.action].fingerprint.Some?
          && actions[g.action].fingerprint.value != FingerprintOf(Row()) {
        return Some(StaleApproval);
      }
      e := None;
    }

    /** _run_after_idempotency. */
    method RunAfterIdempotency(customers: map<CustomerId, MerchantId>, r: Request, key: KeyId, grant: Option<Grant>,
                               settings: PolicySettings, env: Env, now: Micros) returns (ran: Ran)
      requires ValidInput(r)
      modifies `status, `version, `closedAt, `log, `actions, `approvals, `notices, `payments
      ensures ran == RunTool(customers, old(Current()), r, key, grant, settings, env, now)
      ensures !ran.Lost? ==> Current() == ran.work
    {
      var v := EvaluateAction(BuildContext(Row(), id, Tables(), settings, env, now), ProposalOf(r));
      ran := RunUnder(customers, r, key, grant, v, settings.approvalTtl, env, now);
    }

    method RunUnder(customers: map<CustomerId, MerchantId>, r: Request, key: KeyId, grant: Option<Grant>,
                    v: Policy.Verdict, ttl: int, env: Env, now: Micros) returns (ran: Ran)
      requires ValidInput(r)
      modifies `status, `version, `closedAt, `log, `actions, `approvals, `notices, `payments
      ensures ran == RunJudged(customers, old(Current()), r, key, grant, v, ttl, env, now)
      ensures !ran.Lost? ==> Current() == ran.work
    {
      if !Executable(status) {
        return Raised(Current(), InvalidCaseState);
      }
      if !v.allowed {
        var a := UpsertAction(r.tool, key, Reentered(grant), Blocked, None, now);
        return Finished(Current(), Result(RunBlocked, a, None));
      }
      if v.requiresApproval && grant.None? {
        ran := RequestApprovalFor(r, key, ttl, now);
        return;
      }
      if grant.Some? {
        var e := CheckApproval(grant.value, now);
        if e.Some? {
          return Raised(Current(), e.value);
        }
      }
      ran := PerformTool(customers, r, key, grant, env, now);
    }

    method RequestApprovalFor(r: Request, key: KeyId, ttl: int, now: Micros) returns (ran: Ran)
      modifies `status, `version, `closedAt, `log, `actions, `approvals
      ensures ran == AskForApproval(old(Current()), r, key, ttl, now) && Current() == ran.work
    {
      var a := UpsertAction(r.tool, key, None, ApprovalRequired, Some(r), now);
      var n := RequestApproval(a, ttl, now);
      if status == PolicyCheck {
        MoveTo(AwaitingApproval, now);
      }
      ran := Finished(Current(), Result(NeedsApproval, a, Some(n)));
    }

    /* ----- Idempotency ----- */

    /** begin_idempotent_operation: opens the key, or finds what it holds. */
    method BeginIdempotent(key: KeyId, r: Request)
      modifies `keys
      ensures Current() == Opened(old(Current()), key, r)
    {
      if key !in keys {
        keys := keys[key := KeyRecord(InProgress, r, None)];
      }
    }

    /** complete_idempotent_operation or fail_idempotent_operation, and the tool call's row. */
    method FinishIdempotent(key: KeyId, r: Request, ran: Ran) returns (e: Executed)
      requires key in keys && !ran.Lost? && Current() == ran.work
      modifies `keys, `calls
      ensures keys == old(keys)[key := RecordAfter(old(keys)[key], ran)]
      ensures e == Done(Current(), if ran.Raised? then Error(ran.error) else Answered(ran.result))
      ensures calls == old(calls) + [ToolCall(key, id, r.tool, if ran.Raised? then Failed(ran.error)
          else Returned(ran.result.outcome))]
      ensures Current() == old(Current()).(tools := old(Tables()).(keys := keys, calls := calls))
    {
      var record := keys[key];
      if ran.Raised? {
        keys := keys[key := record.(status := KeyFailed)];
        calls := calls + [ToolCall(key, id, r.tool, Failed(ran.error))];
        return Done(Current(), Error(ran.error));
      }
      if ran.result.outcome == NeedsApproval {
        keys := keys[key := record.(result := Some(ran.result))];
      } else {
        keys := keys[key := record.(status := KeyCompleted, result := Some(ran.result))];
      }
      calls := calls + [ToolCall(key, id, r.tool, Returned(ran.result.outcome))];
      e := Done(Current(), Answered(ran.result));
    }

    /** ToolExecutionService.execute. */
    method ExecuteTool(customers: map<CustomerId, MerchantId>, r: Request, key: Key, grant: Option<Grant>,
                       settings: PolicySettings, env: Env, now: Micros) returns (e: Executed)
      modifies `status, `version, `closedAt, `log, `actions, `approvals, `keys, `calls, `notices, `payments
      ensures e == Execute(customers, old(Current()), r, key, grant, settings, env, now)
      ensures e.Done? ==> Current() == e.work
      ensures CalledAs(customers, old(Current()), e, r, KeyId(old(fixed.merchant), key), grant,
                       Judged(old(Current()), r, settings, env, now), settings.approvalTtl, env, now)
    {
      CallOutcome(customers, Current(), r, key, grant, settings, env, now);
      var k := KeyId(fixed.merchant, key);
      if !ValidInput(r) {
        return Done(Current(), Error(InvalidInput));
      }
      if Terminal(status) {
        return Done(Current(), Error(CaseTerminal));
      }
      if k in keys {
        if keys[k].request != r {
          return Done(Current(), Error(KeyConflict));
        }
        match GateOf(keys[k], grant.Some?) {
          case Stored(result) => return Done(Current(), Replay(result));
          case Busy => return Done(Current(), Error(KeyBusy));
          case Proceed =>
        }
      }
      e := ExecuteAdmitted(customers, r, k, grant, settings, env, now);
    }

    method ExecuteAdmitted(customers: map<CustomerId, MerchantId>, r: Request, key: KeyId, grant: Option<Grant>,
                           settings: PolicySettings, env: Env, now: Micros) returns (e: Executed)
      requires ValidInput(r)
      modifies `status, `version, `closedAt, `log, `actions, `approvals, `keys, `calls, `notices, `payments
      ensures var begun := Opened(old(Current()), key, r);
              e == Conclude(begun, key, r, RunTool(customers, begun, r, key, grant, settings, env, now))
      ensures e.Done? ==> Current() == e.work
    {
      BeginIdempotent(key, r);
      ghost var begun := Current();
      var ran := RunAfterIdempotency(customers, r, key, grant, settings, env, now);
      if ran.Lost? {
        return Crashed;
      }
      e := FinishIdempotent(key, r, ran);
      assert e.work == Conclude(begun, key, r, ran).work;
    }

    /* ----- Approvals ----- */

    method ExpireApproval(n: nat, now: Micros)
      requires n < |approvals|
      modifies `approvals
      ensures Current() == ExpireIfNeeded(old(Current()), n, now)
    {
      if approvals[n].status == AwaitingDecision && approvals[n].expiresAt <= now {
        approvals := approvals[n := approvals[n].(status := Expired)];
      }
    }

    /** approve_action. */
    method ApproveAction(customers: map<CustomerId, MerchantId>, a: nat, settings: PolicySettings, env: Env, now: Micros)
      returns (e: Executed)
      modifies `status, `version, `closedAt, `log, `actions, `approvals, `keys, `calls, `notices, `payments
      ensures e == Approve(customers, old(Current()), a, settings, env, now)
      ensures e.Done? ==> Current() == e.work
      ensures ApprovedAs(customers, old(Current()), e, a, settings, env, now)
    {
      ApproveOutcome(customers, Current(), a, settings, env, now);
      if a >= |actions| || actions[a].keyId.merchant != fixed.merchant {
        return Done(Current(), Error(ActionNotFound));
      }
      var found := LatestApproval(approvals, id, a);
      if found.None? {
        return Done(Current(), Error(ApprovalNotFound));
      }
      var n := found.value;
      ExpireApproval(n, now);
      var refusal := ApprovalRefusal(Current(), a, n);
      if refusal.Some? {
        return Done(Current(), Error(refusal.value));
      }
      Grant(a, n);
      e := ExecuteTool(customers, RecordedRequest(actions[a]), actions[a].keyId.key, Some(Execution.Grant(n, a)),
          settings, env, now);
    }

    method Grant(a: nat, n: nat)
      requires a < |actions| && n < |approvals|
      modifies `actions, `approvals
      ensures Current() == Approving(old(Current()), a, n)
      ensures a < |actions| && RecordedRequest(actions[a]) == RecordedRequest(old(actions)[a])
          && actions[a].keyId == old(actions)[a].keyId
    {
      approvals := approvals[n := approvals[n].(status := Granted)];
      actions := actions[a := actions[a].(status := Approved)];
    }

    /** reject_action. */
    method RejectAction(a: nat, now: Micros)
      modifies `status, `version, `closedAt, `log, `actions, `approvals, `keys
      ensures Current() == Reject(old(Current()), a, now)
      ensures var found := FindApproval(old(Current()), a);
              if found.None? then Current() == old(Current())
              else
                && Row() == HandedOver(old(Row())) && payments == old(payments) && creditedFrom == old(creditedFrom)
                && Tables() == ToolsRejected(old(Tables()), a, found.value)
    {
      RejectEnds(Current(), a, now);
      var found := FindApproval(Current(), a);
      if found.None? {
        return;
      }
      CancelAction(a, found.value);
      if status == AwaitingApproval {
        MoveTo(Escalated, now);
      }
    }

    method CancelAction(a: nat, n: nat)
      requires a < |actions| && n < |approvals|
      modifies `actions, `approvals, `keys
      ensures Current() == Rejecting(old(Current()), a, n)
    {
      var key := actions[a].keyId;
      approvals := approvals[n := approvals[n].(status := Rejected)];
      actions := actions[a := actions[a].(status := ActionCancelled)];
      if key in keys {
        keys := keys[key := keys[key].(status := KeyFailed)];
      }
    }

    /* ----- The orchestrator ----- */

    /** run_case, as far as it moves the case: one _advance per stage, until one is refused. */
    method AdvanceThrough(stages: nat, now: Micros)
      modifies `status, `version, `closedAt, `log
      ensures Current() == Advanced(old(Current()), stages, now)
      ensures Row() == if BeforeCheck(old(status)) then Climbed(old(Row()), FarthestOf(Rank(old(status)), stages)) else old(Row())
    {
      AdvanceEnds(Current(), stages, now);
      if Terminal(status) {
        return;
      }
      ghost var start := Current();
      var k := 0;
      while k < stages && k < STAGE_COUNT
        invariant 0 <= k <= STAGE_COUNT
        invariant AdvancedFrom(Current(), k, stages, now) == AdvancedFrom(start, 0, stages, now)
        decreases STAGE_COUNT - k
      {
        if !StaysPut(status, Stage(k)) {
          var ok := Transition(Stage(k), now);
          if !ok {
            return;
          }
        }
        k := k + 1;
      }
    }

    /** _fail_closed. */
    method CloseOff(now: Micros)
      modifies `status, `version, `closedAt, `log
      ensures Current() == ClosedOff(old(Current()), now)
    {
      if status == PolicyCheck {
        MoveTo(Escalated, now);
      }
    }

    /* ----- Provider events ----- */

    /** EventIngestionService.ingest. */
    method Ingest(key: EventKey, merchant: MerchantId, body: EventBody)
      modifies `store
      ensures store == Ingested(old(store), key, merchant, body)
    {
      if merchant in store.merchants && key !in store.webhooks {
        store := store.(webhooks := store.webhooks[key := Webhook(merchant, body, Received)]);
      }
    }

    /** The job of one webhook row: process_webhook_event and its commit, or its rollback. */
    method ProcessWebhookEvent(key: EventKey, now: Micros)
      modifies `store
      ensures store == EventProcessed(old(store), key, now)
      ensures (forall c <- old(store).cases :: Sound(c)) ==> ProcessedAs(old(store), store, key, now)
    {
      if forall c <- store.cases :: Sound(c) {
        ProcessingOfEvent(store, key, now);
      }
      if !Waiting(store, key) {
        return;
      }
      var w := store.webhooks[key];
      match TreatmentOf(store.merchants.Keys, store.customers, store.payments, key, w) {
        case Bury => MarkDeadLetter(key, false);
        case Crash =>
        case Ignore => MarkProcessed(key, now);
        case Apply =>
          var p := PaymentOf(w, key.provider);
          var pay := if p in store.payments then Updated(store.payments[p], w.body) else Fresh(w.body);
          var cases := store.cases;
          if w.body.kind == FailedEvent {
            cases := OpenCase(p, pay, now);
          }
          ghost var b := Applied(Books(store.payments, store.cases), key, w, now);
          var payments' := store.payments[p := pay];
          MarkProcessed(key, now);
          store := store.(payments := payments', cases := cases);
          assert b == Books(payments', cases);
      }
    }

    /** _create_or_attach_recovery_case: looks for an open case of the payment. */
    method OpenCase(p: PaymentId, pay: Payment, now: Micros) returns (cases: seq<Case>)
      ensures cases == WithCaseFor(store.cases, p, pay, now)
      ensures cases == if exists c <- store.cases :: c.merchant == p.merchant && c.payment == Some(p) && c.closedAt.None?
                       then store.cases else store.cases + [DetectedCase(p, pay, now)]
    {
      assert forall c :: OpenFor(c, p) <==> c.merchant == p.merchant && c.payment == Some(p) && c.closedAt.None?;
      cases := store.cases;
      for i := 0 to |store.cases|
        invariant !HasOpenCase(store.cases[..i], p)
      {
        if OpenFor(store.cases[i], p) {
          assert store.cases[i] in store.cases;
          return;
        }
        assert store.cases[..i + 1] == store.cases[..i] + [store.cases[i]];
      }
      assert store.cases[..|store.cases|] == store.cases;
      cases := cases + [Case(p.merchant, pay.customer, Some(p), Detected, pay.amount, 0, pay.currency, 1, now, None,
          None, None, None)];
    }

    method MarkProcessed(key: EventKey, now: Micros)
      requires key in store.webhooks
      modifies `store
      ensures store == Logged(old(store), key, now)
    {
      var w := store.webhooks[key];
      store := store.(webhooks := store.webhooks[key := w.(status := Processed)],
                      audit := store.audit + [AuditRow(None, EventDone(key, now))]);
    }

    /** A job that has failed: mark_dead_letter, when no retry is left and the row still waits. */
    method MarkDeadLetter(key: EventKey, retriesLeft: bool)
      modifies `store
      ensures store == EventLost(old(store), key, retriesLeft)
    {
      if !retriesLeft && Waiting(store, key) {
        var w := store.webhooks[key];
        store := store.(webhooks := store.webhooks[key := w.(status := DeadLetter)]);
      }
    }

    /* ----- One transaction ----- */

    method RunOnCase(op: Op, env: Env) returns (e: Executed)
      requires Locks(store, op) && Current() == Begin(store, CaseOf(op).value)
      modifies `status, `version, `closedAt, `log, `recovered, `verifiedPayment, `verifiedEvent, `mismatch, `creditedFrom,
               `actions, `approvals, `keys, `calls, `notices, `payments
      ensures e == Worked(store, op, env)
      ensures e.Done? ==> Current() == e.work
    {
      var settings, now := store.merchants[fixed.merchant], store.clock;
      if op.ExecuteTool? {
        e := ExecuteTool(store.customers, op.request, ClientKey(op.name), None, settings, env, now);
      } else if op.ApproveAction? {
        e := ApproveAction(store.customers, op.action, settings, env, now);
      } else {
        RunService(op, env);
        e := Quiet(Current());
      }
    }

    /** A service whose answer to the caller is not modelled. */
    method RunService(op: Op, env: Env)
      requires Locks(store, op) && Current() == Begin(store, CaseOf(op).value) && !op.ExecuteTool? && !op.ApproveAction?
      modifies `status, `version, `closedAt, `log, `recovered, `verifiedPayment, `verifiedEvent, `mismatch, `creditedFrom,
               `actions, `approvals, `keys
      ensures Worked(store, op, env) == Quiet(Current())
    {
      var settings, now := store.merchants[fixed.merchant], store.clock;
      match op {
        case ProcessCase(_) => ProcessLockedCase(settings, env, now);
        case VerifyCase(_, payment, event) => var _ := VerifyCase(payment, event, settings, env, now);
        case PreparePolicyCheck(_) => var _ := WalkToPolicyCheck(now);
        case RejectAction(_, a) => RejectAction(a, now);
        case Advance(_, stages) => AdvanceThrough(stages, now);
        case FailClosed(_) => CloseOff(now);
      }
    }

    method RunStep(s: Step)
      modifies this
      ensures store == Next(old(store), s)
    {
      Tick(s);
      Transact(s.op, s.env);
    }

    method Tick(s: Step)
      modifies `store
      ensures store == Ticked(old(store), s)
    {
      store := store.(clock := store.clock + s.delay);
    }

    method Transact(op: Op, env: Env)
      modifies this
      ensures store == Stepped(old(store), op, env)
    {
      match op {
        case Ingest(key, merchant, body) => Ingest(key, merchant, body);
        case ProcessEvent(key) => ProcessWebhookEvent(key, store.clock);
        case LoseEvent(key, retriesLeft) => MarkDeadLetter(key, retriesLeft);
        case RollBack =>
        case _ => RunCaseStep(op, env);
      }
    }

    /** Locks the case, runs the service, and commits; a crash commits nothing. */
    method RunCaseStep(op: Op, env: Env)
      requires CaseOf(op).Some?
      modifies this
      ensures store == CaseStepped(old(store), op, env)
    {
      if !Locks(store, op) {
        return;
      }
      var e := RunLocked(op, env);
      assert CaseStepped(old(store), op, env)
             == if e.Crashed? then old(store) else Commit(old(store), CaseOf(op).value, e.work);
    }

    method RunLocked(op: Op, env: Env) returns (e: Executed)
      requires Locks(store, op)
      modifies this
      ensures e == Worked(old(store), op, env)
      ensures store == if e.Crashed? then old(store) else Commit(old(store), CaseOf(op).value, e.work)
    {
      Lock(CaseOf(op).value);
      assert id == CaseOf(op).value;
      e := RunOnCase(op, env);
      CommitUnlessCrashed(e);
    }

    method CommitUnlessCrashed(e: Executed)
      requires id < |store.cases| && (e.Done? ==> Current() == e.work)
      modifies `store
      ensures store == if e.Crashed? then old(store) else Commit(old(store), id, e.work)
    {
      if e.Done? {
        CommitWork();
      }
    }

    /** A run of steps, whatever their order. */
    method RunAll(steps: seq<Step>)
      modifies this
      ensures store == Run(old(store), steps)
    {
      for i := 0 to |steps|
        invariant store == Run(old(store), steps[..i])
      {
        assert steps[..i + 1][..i] == steps[..i];
        RunStep(steps[i]);
      }
      assert steps[..|steps|] == steps;
    }
  }
}
