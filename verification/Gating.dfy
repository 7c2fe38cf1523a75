/** No handler runs unless policy allows it in that same step, and no approval authorises
    two runs. */
module Gating {
  import opened Domain
  import opened StateMachine
  import opened Store
  import opened Policy
  import opened PolicyContext
  import opened Processor
  import opened Planning
  import opened Verification
  import opened Crediting
  import opened Execution
  import opened Tooling
  import opened Engine
  import opened Ledger
  import opened Idempotency
  import opened Rows

  /* ----- One execution ----- */

  /** What stands in front of a handler. */
  ghost predicate GateOpen(u: Work, r: Request, grant: Option<Grant>, settings: PolicySettings, env: Env, now: Micros) {
    && ValidInput(r) && Executable(u.row.status)
    && Judged(u, r, settings, env, now).allowed
    && if grant.None? then !Judged(u, r, settings, env, now).requiresApproval else GrantError(u, grant.value, now).None?
  }

  /** An execution either has no effect on tables outside the key's own, or its tool call
      says that a handler came to its end, and then the gate was open. */
  ghost predicate Effects(u: Work, w: Work, r: Request, id: KeyId, open: bool, now: Micros) {
    || (w.tools.calls == u.tools.calls && w.tools.notices == u.tools.notices && w.payments == u.payments)
    || (&& |w.tools.calls| == |u.tools.calls| + 1
        && var c := w.tools.calls[|u.tools.calls|];
           && w.tools.calls == u.tools.calls + [c] && c.keyId == id && c.caseId == u.id && c.tool == r.tool
           && if Completes(c, id)
              then open && (w.tools.notices == u.tools.notices
                            || (r.tool.SendReminder? && w.tools.notices
                                == u.tools.notices + [Notice(u.row.merchant, u.row.customer, u.id, now)]))
              else w.tools.notices == u.tools.notices && w.payments == u.payments)
  }

  lemma {:induction false} ConclusionEffects(u: Work, r: Request, id: KeyId, grant: Option<Grant>, v: Verdict,
          ttl: int, now: Micros, ran: Ran)
    requires ValidInput(r) && (id !in u.tools.keys || u.tools.keys[id].request == r)
    requires !ran.Lost? && RunShape(Opened(u, id, r), r, id, grant, v, ttl, now, ran)
    ensures Effects(u, Conclude(Opened(u, id, r), id, r, ran).work, r, id,
                    && ValidInput(r) && Executable(u.row.status) && v.allowed
                    && (if grant.None? then !v.requiresApproval else GrantError(u, grant.value, now).None?),
                    now)
  {
    var begun := Opened(u, id, r);
    RunLeavesKeys(begun, r, id, grant, v, ttl, now, ran);
    ConcludeShape(begun, id, r, ran);
  }

  lemma {:induction false} OpenedJudgement(u: Work, id: KeyId, r: Request, settings: PolicySettings, env: Env, now: Micros)
    ensures Judged(Opened(u, id, r), r, settings, env, now) == Judged(u, r, settings, env, now)
  {
    assert BuildContext(u.row, u.id, u.tools, settings, env, now)
           == BuildContext(u.row, u.id, Opened(u, id, r).tools, settings, env, now);
  }

  lemma {:induction false} ExecuteEffects(customers: map<CustomerId, MerchantId>, u: Work, r: Request, key: Key,
                       grant: Option<Grant>, settings: PolicySettings, env: Env, now: Micros)
    ensures var done := Execute(customers, u, r, key, grant, settings, env, now);
            done.Crashed?
            || Effects(u, done.work, r, KeyId(u.row.merchant, key), GateOpen(u, r, grant, settings, env, now), now)
  {
    var id := KeyId(u.row.merchant, key);
    if Admission(u, r, id, grant.Some?).None? {
      var begun := Opened(u, id, r);
      var v := Judged(begun, r, settings, env, now);
      OpenedJudgement(u, id, r, settings, env, now);
      var ran := RunJudged(customers, begun, r, id, grant, v, settings.approvalTtl, env, now);
      RunJudgedShape(customers, begun, r, id, grant, v, settings.approvalTtl, env, now);
      if !ran.Lost? {
        ConclusionEffects(u, r, id, grant, v, settings.approvalTtl, now, ran);
      }
      assert Execute(customers, u, r, key, grant, settings, env, now) == Conclude(begun, id, r, ran);
    }
  }

  /* ----- One step ----- */

  /** The call of a step, if the step is one that may run a handler. */
  datatype Attempt = Attempt(start: Work, request: Request, key: Key, grant: Option<Grant>) | NoAttempt

  /** The execution that a step amounts to, after the approval has been recorded. */
  function AttemptOf(db: Db, op: Op): Attempt
    requires Locks(db, op)
  {
    var u := Begin(db, CaseOf(op).value);
    match op
    case ExecuteTool(_, r, name) => Attempt(u, r, ClientKey(name), None)
    case ApproveAction(_, a) => AttemptUnder(u, a, db.clock)
    case _ => NoAttempt
  }

  /** The execution that giving the pending approval of action a re-enters. */
  function AttemptUnder(u: Work, a: nat, now: Micros): Attempt {
    var found := FindApproval(u, a);
    if found.None? then NoAttempt
    else
      var n := found.value;
      var v := ExpireIfNeeded(u, n, now);
      if ApprovalRefusal(v, a, n).Some? then NoAttempt
      else Attempt(Approving(v, a, n), RecordedRequest(v.tools.actions[a]), v.tools.actions[a].keyId.key, Some(Grant(n, a)))
  }

  predicate QuietTools(t: Tools, t': Tools) {
    t'.calls == t.calls && t'.notices == t.notices
  }

  lemma {:induction false} ProcessIsQuiet(u: Work, settings: PolicySettings, env: Env, now: Micros)
    ensures var w := ProcessLocked(u, settings, env, now);
            QuietTools(u.tools, w.tools) && w.payments == u.payments
  {
    WalkKeeps(u, now);
    var v := Walked(u, now);
    if v.row.status == PolicyCheck {
      var d := ProcessDecision(v, settings, env, now);
      DecisionIsQuiet(v, d, settings.approvalTtl, now);
      assert !SettledForProcessing(u.row.status) ==>
               ProcessLocked(u, settings, env, now) == ProcessDecided(v, d, settings.approvalTtl, now);
    }
  }

  lemma {:induction false} DecisionIsQuiet(u: Work, d: Decision, ttl: int, now: Micros)
    requires u.row.status == PolicyCheck
    ensures var w := ProcessDecided(u, d, ttl, now);
            QuietTools(u.tools, w.tools) && w.payments == u.payments
  {
    DecidedTools(u, d, ttl, now);
    ProcessDecidedKeeps(u, d, ttl, now);
  }

  lemma {:induction false} VerifyIsQuiet(db: Db, u: Work, payment: Option<PaymentId>, event: Option<EventKey>,
                      settings: PolicySettings, env: Env, now: Micros)
    ensures var w := Verify(db, u, payment, event, settings, env, now);
            QuietTools(u.tools, w.tools) && w.payments == u.payments
  {
    VerifyTools(db, u, payment, event, settings, env, now);
    ProcessIsQuiet(u, settings, env, now);
    var target := ResolvePayment(u, payment);
    if u.row.status != Stopped && target.Some? {
      KeepsPayments(u, settings, env, now);
      ApplyKeepsRest(EnsureVerifying(u, settings, env, now), target.value, event, EvaluateMatch(db, u, target.value), now);
    }
  }

  lemma {:induction false} AdvancedIsQuiet(u: Work, k: nat, n: nat, now: Micros)
    ensures var w := AdvancedFrom(u, k, n, now);
            w.tools == u.tools && w.payments == u.payments
    decreases STAGE_COUNT - k
  {
    if k < n && k < STAGE_COUNT {
      if StaysPut(u.row.status, Stage(k)) {
        AdvancedIsQuiet(u, k + 1, n, now);
      } else if Legal(u.row.status, Stage(k)) {
        AdvancedIsQuiet(u.Move(Stage(k), now), k + 1, n, now);
      }
    }
  }

  /** An attempt is an execution, on the case and the effects as they are in the store. */
  lemma {:induction false} AttemptIsExecution(db: Db, op: Op, env: Env)
    requires Locks(db, op) && AttemptOf(db, op).Attempt?
    ensures var at := AttemptOf(db, op);
            && Worked(db, op, env) == Execute(db.customers, at.start, at.request, at.key, at.grant,
                                              db.merchants[db.cases[CaseOf(op).value].merchant], env, db.clock)
            && QuietTools(db.tools, at.start.tools) && at.start.payments == db.payments
            && at.start.row == db.cases[CaseOf(op).value] && at.start.id == CaseOf(op).value
            && at.start.tools.keys == db.tools.keys
  {
    var u := Begin(db, CaseOf(op).value);
    if op.ApproveAction? {
      ApprovalIsExecution(db.customers, u, op.action, db.merchants[u.row.merchant], env, db.clock);
      assert Worked(db, op, env) == Approve(db.customers, u, op.action, db.merchants[u.row.merchant], env, db.clock);
    }
  }

  lemma {:induction false} ApprovalIsExecution(customers: map<CustomerId, MerchantId>, u: Work, a: nat,
                       settings: PolicySettings, env: Env, now: Micros)
    requires AttemptUnder(u, a, now).Attempt?
    ensures var at := AttemptUnder(u, a, now);
            && Approve(customers, u, a, settings, env, now)
               == Execute(customers, at.start, at.request, at.key, at.grant, settings, env, now)
            && QuietTools(u.tools, at.start.tools) && at.start.payments == u.payments
            && at.start.row == u.row && at.start.id == u.id && at.start.tools.keys == u.tools.keys
  {
  }

  /** A decided approval is never pending again. */
  ghost predicate ApprovalsOnward(t: Tools, t': Tools) {
    && |t'.approvals| >= |t.approvals|
    && forall n | 0 <= n < |t.approvals| :: !t.approvals[n].status.AwaitingDecision?
        ==> !t'.approvals[n].status.AwaitingDecision?
  }

  /** What a step without an attempt may do to payments and tool tables: nothing, or decide
      approvals, or plan the action of its case, or reject one. */
  ghost predicate QuietWork(db: Db, op: Op, env: Env, w: Work)
    requires Locks(db, op)
  {
    var u := Begin(db, CaseOf(op).value);
    && w.payments == u.payments
    && (|| (w.tools == u.tools.(approvals := w.tools.approvals) && ApprovalsOnward(u.tools, w.tools))
        || ((op.ProcessCase? || op.VerifyCase?)
            && w.tools == ProcessLocked(u, db.merchants[u.row.merchant], env, db.clock).tools)
        || (op.RejectAction? && w.tools == Reject(u, op.action, db.clock).tools))
  }

  lemma {:induction false} ServiceIsQuiet(db: Db, op: Op, env: Env)
    requires Locks(db, op) && (op.ProcessCase? || op.VerifyCase?)
    ensures QuietWork(db, op, env, Worked(db, op, env).work)
  {
    var u := Begin(db, CaseOf(op).value);
    var settings, now := db.merchants[u.row.merchant], db.clock;
    if op.VerifyCase? {
      VerifyTools(db, u, op.payment, op.event, settings, env, now);
      VerifyIsQuiet(db, u, op.payment, op.event, settings, env, now);
      assert Worked(db, op, env).work == Verify(db, u, op.payment, op.event, settings, env, now);
    } else {
      ProcessIsQuiet(u, settings, env, now);
      assert Worked(db, op, env).work == ProcessLocked(u, settings, env, now);
    }
  }

  lemma {:induction false} MovesAreQuiet(db: Db, op: Op, env: Env)
    requires Locks(db, op) && (op.PreparePolicyCheck? || op.Advance? || op.FailClosed?)
    ensures QuietWork(db, op, env, Worked(db, op, env).work)
  {
    var u := Begin(db, CaseOf(op).value);
    match op
    case PreparePolicyCheck(_) => WalkKeeps(u, db.clock);
    case Advance(_, stages) => AdvancedIsQuiet(u, 0, stages, db.clock);
    case _ =>
  }

  lemma {:induction false} RejectionIsQuiet(db: Db, op: Op, env: Env)
    requires Locks(db, op) && op.RejectAction?
    ensures QuietWork(db, op, env, Worked(db, op, env).work)
  {
    assert Worked(db, op, env).work == Reject(Begin(db, op.i), op.action, db.clock);
  }

  /** An approval that is not given may have been found expired. */
  lemma {:induction false} RefusalIsQuiet(db: Db, op: Op, env: Env)
    requires Locks(db, op) && AttemptOf(db, op).NoAttempt? && op.ApproveAction?
    ensures Worked(db, op, env).Done? && QuietWork(db, op, env, Worked(db, op, env).work)
  {
    var u := Begin(db, op.i);
    var found := FindApproval(u, op.action);
    var w := if found.Some? then ExpireIfNeeded(u, found.value, db.clock) else u;
    assert Worked(db, op, env).Done? && Worked(db, op, env).work == w;
  }

  lemma {:induction false} NoAttemptIsQuiet(db: Db, op: Op, env: Env)
    requires Locks(db, op) && AttemptOf(db, op).NoAttempt?
    ensures Worked(db, op, env).Done? && QuietWork(db, op, env, Worked(db, op, env).work)
  {
    match op
    case ProcessCase(_) => ServiceIsQuiet(db, op, env);
    case VerifyCase(_, _, _) => ServiceIsQuiet(db, op, env);
    case ApproveAction(_, _) => RefusalIsQuiet(db, op, env);
    case RejectAction(_, _) => RejectionIsQuiet(db, op, env);
    case _ => MovesAreQuiet(db, op, env);
  }

  /** A step without an attempt neither calls a tool nor notifies, and books no payment. */
  lemma {:induction false} QuietWorkHasNoEffects(db: Db, op: Op, env: Env, w: Work)
    requires Locks(db, op) && QuietWork(db, op, env, w)
    ensures QuietTools(db.tools, w.tools) && w.payments == db.payments
  {
    var u := Begin(db, CaseOf(op).value);
    ProcessIsQuiet(u, db.merchants[u.row.merchant], env, db.clock);
  }

  ghost predicate WorkHasEffects(db: Db, op: Op, env: Env, at: Attempt, w: Work)
    requires Locks(db, op)
  {
    if at.NoAttempt? then QuietTools(db.tools, w.tools) && w.payments == db.payments
    else
      && QuietTools(db.tools, at.start.tools) && at.start.payments == db.payments
      && at.start.row == db.cases[CaseOf(op).value] && at.start.id == CaseOf(op).value
      && Effects(at.start, w, at.request, KeyId(at.start.row.merchant, at.key),
                 GateOpen(at.start, at.request, at.grant, db.merchants[at.start.row.merchant], env, db.clock), db.clock)
  }

  lemma {:induction false} WorkEffects(db: Db, op: Op, env: Env)
    requires Locks(db, op)
    ensures var done := Worked(db, op, env);
            done.Crashed? || WorkHasEffects(db, op, env, AttemptOf(db, op), done.work)
  {
    var at, settings := AttemptOf(db, op), db.merchants[db.cases[CaseOf(op).value].merchant];
    if at.NoAttempt? {
      NoAttemptIsQuiet(db, op, env);
      QuietWorkHasNoEffects(db, op, env, Worked(db, op, env).work);
    } else {
      AttemptIsExecution(db, op, env);
      ExecuteEffects(db.customers, at.start, at.request, at.key, at.grant, settings, env, db.clock);
    }
  }

  /** The step brings a handler run of the key to its end. */
  predicate RunsHandler(db: Db, s: Step, id: KeyId) {
    Runs(Next(db, s).tools.calls, id) > Runs(db.tools.calls, id)
  }

  /** A step that runs a handler goes through an open gate of the key's own case. */
  ghost predicate PassesGate(db: Db, s: Step, id: KeyId) {
    && Commits(db, s)
    && var t := Ticked(db, s);
       var at := AttemptOf(t, s.op);
       && at.Attempt? && id == KeyId(at.start.row.merchant, at.key) && at.start.row == db.cases[CaseOf(s.op).value]
       && GateOpen(at.start, at.request, at.grant, db.merchants[at.start.row.merchant], s.env, t.clock)
  }

  lemma {:induction false} RunsPassTheGate(db: Db, s: Step, id: KeyId)
    requires RunsHandler(db, s, id)
    ensures PassesGate(db, s, id)
  {
    NextShape(db, s);
    if Commits(db, s) {
      var t := Ticked(db, s);
      var at, w := AttemptOf(t, s.op), WorkOf(db, s);
      WorkEffects(t, s.op, s.env);
      if at.Attempt? && |w.tools.calls| == |db.tools.calls| + 1 {
        OneMoreCall(db.tools.calls, w.tools.calls[|db.tools.calls|], id);
      }
    }
  }

  /** Handlers alone have effects: a step that books a payment or notifies a customer, and is
      not the processing of a provider event, brings a handler run to its end. */
  lemma {:induction false} OnlyRunsHaveEffects(db: Db, s: Step)
    requires !s.op.ProcessEvent?
    requires Next(db, s).payments != db.payments || Next(db, s).tools.notices != db.tools.notices
    ensures exists id :: RunsHandler(db, s, id)
  {
    NextShape(db, s);
    if Commits(db, s) {
      var t := Ticked(db, s);
      var at, w := AttemptOf(t, s.op), WorkOf(db, s);
      WorkEffects(t, s.op, s.env);
      EffectsAreRuns(t, s.op, s.env, at, w);
      assert RunsHandler(db, s, KeyId(at.start.row.merchant, at.key));
    }
  }

  lemma {:induction false} EffectsAreRuns(db: Db, op: Op, env: Env, at: Attempt, w: Work)
    requires Locks(db, op) && WorkHasEffects(db, op, env, at, w)
    requires w.payments != db.payments || w.tools.notices != db.tools.notices
    ensures at.Attempt?
    ensures var id := KeyId(at.start.row.merchant, at.key); Runs(w.tools.calls, id) > Runs(db.tools.calls, id)
  {
    OneMoreCall(db.tools.calls, w.tools.calls[|db.tools.calls|], KeyId(at.start.row.merchant, at.key));
  }

  /* ----- Approvals ----- */

  /** A pending approval of the case, given before it expires, for the case as it is now. */
  ghost predicate Covers(db: Db, i: nat, a: nat, n: nat)
    requires i < |db.cases|
  {
    && n < |db.tools.approvals| && a < |db.tools.actions|
    && var ap := db.tools.approvals[n];
       && ap.caseId == i && ap.action == a && ap.status.AwaitingDecision? && ap.expiresAt > db.clock
       && db.tools.actions[a].fingerprint == Remembered(db.cases[i])
  }

  lemma {:induction false} AttemptIsCovered(db: Db, op: Op, env: Env)
    requires TablesSound(db, db.tools) && Locks(db, op) && op.ApproveAction?
    requires var at := AttemptOf(db, op);
             at.Attempt? && at.grant.Some? && GrantError(at.start, at.grant.value, db.clock).None?
    ensures var at := AttemptOf(db, op);
            && Covers(db, op.i, op.action, at.grant.value.approval)
            && at.start == Approving(Begin(db, op.i), op.action, at.grant.value.approval)
            && at.key == db.tools.actions[op.action].keyId.key
            && at.request == RecordedRequest(db.tools.actions[op.action])
  {
    var n := AttemptOf(db, op).grant.value.approval;
    assert ApprovalRule(db.tools.actions, db.tools.approvals[n]);
  }

  /** An approval that is being given is refused by the execution only as stale, and exactly
      when the case no longer has the fingerprint that its row remembers. */
  lemma {:induction false} ApprovalIsStaleIff(db: Db, op: Op)
    requires TablesSound(db, db.tools) && Locks(db, op) && op.ApproveAction? && AttemptOf(db, op).Attempt?
    ensures var at := AttemptOf(db, op);
            && op.action < |db.tools.actions| && at.grant.Some?
            && GrantError(at.start, at.grant.value, db.clock)
               == (if Covers(db, op.i, op.action, at.grant.value.approval) then None else Some(StaleApproval))
            && (Covers(db, op.i, op.action, at.grant.value.approval) <==>
                  db.tools.actions[op.action].fingerprint == Remembered(db.cases[op.i]))
  {
    var n := AttemptOf(db, op).grant.value.approval;
    assert ApprovalRule(db.tools.actions, db.tools.approvals[n]);
  }

  /** An approval that is attempted is for an open row of the locked case, with its own tool. */
  lemma {:induction false} AttemptedRow(db: Db, op: Op)
    requires TablesSound(db, db.tools) && Locks(db, op) && op.ApproveAction? && AttemptOf(db, op).Attempt?
    ensures var at := AttemptOf(db, op);
            && op.action < |db.tools.actions|
            && var row := db.tools.actions[op.action];
               && Open(row.status) && row.caseId == op.i && RecordedRequest(row).tool == row.kind
               && at.key == row.keyId.key && at.start.row.merchant == row.keyId.merchant
               && at.request == RecordedRequest(row) && at.grant.Some?
               && at.start == Approving(ExpireIfNeeded(Begin(db, op.i), at.grant.value.approval, db.clock), op.action,
                                        at.grant.value.approval)
  {
    var u := Begin(db, op.i);
    var n := FindApproval(u, op.action).value;
    assert ApprovalRule(db.tools.actions, db.tools.approvals[n]);
    assert RowRule(db, db.tools.keys, db.tools.actions[op.action]);
  }

  /** The gate of one step, in the words of the policy: policy allows the tool now, and either
      needs no approval, or a covering approval is being given. */
  ghost predicate Gated(db: Db, op: Op, env: Env, id: KeyId) {
    && Locks(db, op)
    && var i := CaseOf(op).value;
       && Executable(db.cases[i].status) && id.merchant == db.cases[i].merchant
       && var settings := db.merchants[db.cases[i].merchant];
          match op
          case ExecuteTool(_, r, name) =>
            var v := Judged(Begin(db, i), r, settings, env, db.clock);
            id.key == ClientKey(name) && v.allowed && !v.requiresApproval
          case ApproveAction(_, a) =>
            exists n ::
              && Covers(db, i, a, n) && id == db.tools.actions[a].keyId
              && Judged(Approving(Begin(db, i), a, n), RecordedRequest(db.tools.actions[a]), settings, env, db.clock).allowed
          case _ => false
  }

  lemma {:induction false} OpenGateIsGated(db: Db, op: Op, env: Env)
    requires TablesSound(db, db.tools) && Locks(db, op) && AttemptOf(db, op).Attempt?
    requires var at := AttemptOf(db, op);
             GateOpen(at.start, at.request, at.grant, db.merchants[at.start.row.merchant], env, db.clock)
    ensures var at := AttemptOf(db, op);
            Gated(db, op, env, KeyId(at.start.row.merchant, at.key))
  {
    if op.ApproveAction? {
      AttemptIsCovered(db, op, env);
      var n := AttemptOf(db, op).grant.value.approval;
      assert Covers(db, op.i, op.action, n);
    }
  }

  /** Approval gating, in every reachable state: a handler runs only on an executable case,
      when policy allows the tool in the same step, and either no approval is needed or a
      pending, unexpired approval of the case is being given whose fingerprint matches. */
  lemma {:induction false} HandlersAreGated(genesis: Db, steps: seq<Step>, s: Step, id: KeyId)
    requires genesis.tools == NO_TOOLS
    requires RunsHandler(Run(genesis, steps), s, id)
    ensures Gated(Ticked(Run(genesis, steps), s), s.op, s.env, id)
  {
    var db := Run(genesis, steps);
    RunsPassTheGate(db, s, id);
    RunKeepsTablesSound(genesis, steps);
    LaterKeepsTables(db, Ticked(db, s), db.tools);
    OpenGateIsGated(Ticked(db, s), s.op, s.env);
  }

  lemma {:induction false} RecordedApprovals(u: Work, kind: ActionKind, d: Decision, ttl: int, now: Micros)
    ensures ApprovalsOnward(u.tools, Recorded(u, kind, d, ttl, now).tools)
  {
    var status := match d case Deny(_) => Blocked case Ask => ApprovalRequired case Go => Pending;
    var request := if d.Ask? then Some(PlannedRequest(kind, now)) else None;
    assert Plan(u, kind, status, request, now).tools.approvals == u.tools.approvals;
  }

  lemma {:induction false} ProcessApprovals(u: Work, settings: PolicySettings, env: Env, now: Micros)
    ensures ApprovalsOnward(u.tools, ProcessLocked(u, settings, env, now).tools)
  {
    WalkKeeps(u, now);
    var v := Walked(u, now);
    if v.row.status == PolicyCheck {
      var d := ProcessDecision(v, settings, env, now);
      DecidedTools(v, d, settings.approvalTtl, now);
      RecordedApprovals(v, ChosenAction(v.row, v.payments), d, settings.approvalTtl, now);
      assert !SettledForProcessing(u.row.status) ==>
               ProcessLocked(u, settings, env, now) == ProcessDecided(v, d, settings.approvalTtl, now);
    }
  }

  lemma {:induction false} ConclusionApprovals(u: Work, r: Request, id: KeyId, grant: Option<Grant>, v: Verdict,
          ttl: int, now: Micros, ran: Ran)
    requires id !in u.tools.keys || u.tools.keys[id].request == r
    requires !ran.Lost? && RunShape(Opened(u, id, r), r, id, grant, v, ttl, now, ran)
    ensures ApprovalsOnward(u.tools, Conclude(Opened(u, id, r), id, r, ran).work.tools)
  {
    var begun := Opened(u, id, r);
    RunLeavesKeys(begun, r, id, grant, v, ttl, now, ran);
    ConcludeShape(begun, id, r, ran);
  }

  lemma {:induction false} ExecuteApprovals(customers: map<CustomerId, MerchantId>, u: Work, r: Request, key: Key,
                       grant: Option<Grant>, settings: PolicySettings, env: Env, now: Micros)
    ensures var done := Execute(customers, u, r, key, grant, settings, env, now);
            done.Crashed? || ApprovalsOnward(u.tools, done.work.tools)
  {
    var id := KeyId(u.row.merchant, key);
    if Admission(u, r, id, grant.Some?).None? {
      var begun := Opened(u, id, r);
      var v := Judged(begun, r, settings, env, now);
      var ran := RunJudged(customers, begun, r, id, grant, v, settings.approvalTtl, env, now);
      RunJudgedShape(customers, begun, r, id, grant, v, settings.approvalTtl, env, now);
      if !ran.Lost? {
        ConclusionApprovals(u, r, id, grant, v, settings.approvalTtl, now, ran);
      }
      assert Execute(customers, u, r, key, grant, settings, env, now) == Conclude(begun, id, r, ran);
    }
  }

  /** Besides, an attempt under an approval has decided it. */
  lemma {:induction false} AttemptApprovals(db: Db, op: Op)
    requires Locks(db, op) && AttemptOf(db, op).Attempt?
    ensures var at := AttemptOf(db, op);
            && ApprovalsOnward(db.tools, at.start.tools)
            && (at.grant.Some? ==>
                  var n := at.grant.value.approval;
                  n < |db.tools.approvals| && at.start.tools.approvals[n].status.Granted?)
  {
  }

  lemma {:induction false} RejectApprovals(u: Work, a: nat, now: Micros)
    ensures ApprovalsOnward(u.tools, Reject(u, a, now).tools)
  {
  }

  lemma {:induction false} QuietApprovals(db: Db, op: Op, env: Env, w: Work)
    requires Locks(db, op) && QuietWork(db, op, env, w)
    ensures ApprovalsOnward(db.tools, w.tools)
  {
    var u := Begin(db, CaseOf(op).value);
    if op.RejectAction? {
      RejectApprovals(u, op.action, db.clock);
    } else {
      ProcessApprovals(u, db.merchants[u.row.merchant], env, db.clock);
    }
  }

  /** The approval under which a step's execution is attempted. */
  function ApprovalOf(db: Db, s: Step): Option<nat> {
    if Locks(db, s.op) && AttemptOf(Ticked(db, s), s.op).Attempt? && AttemptOf(Ticked(db, s), s.op).grant.Some?
    then Some(AttemptOf(Ticked(db, s), s.op).grant.value.approval) else None
  }

  lemma {:induction false} NextApprovals(db: Db, s: Step)
    ensures ApprovalsOnward(db.tools, Next(db, s).tools)
    ensures ApprovalOf(db, s).Some? && Commits(db, s) ==>
              var n := ApprovalOf(db, s).value;
              n < |Next(db, s).tools.approvals| && !Next(db, s).tools.approvals[n].status.AwaitingDecision?
  {
    NextShape(db, s);
    if Commits(db, s) {
      var t := Ticked(db, s);
      var at := AttemptOf(t, s.op);
      if at.NoAttempt? {
        NoAttemptIsQuiet(t, s.op, s.env);
        QuietApprovals(t, s.op, s.env, WorkOf(db, s));
      } else {
        AttemptApprovals(t, s.op);
        AttemptIsExecution(t, s.op, s.env);
        ExecuteApprovals(t.customers, at.start, at.request, at.key, at.grant, t.merchants[at.start.row.merchant],
            s.env, t.clock);
      }
    }
  }

  /** The handler runs of a run of steps that approval n authorised. */
  ghost function RunsUnder(genesis: Db, steps: seq<Step>, n: nat): nat {
    if steps == [] then 0
    else
      var db, s := Run(genesis, steps[..|steps| - 1]), steps[|steps| - 1];
      RunsUnder(genesis, steps[..|steps| - 1], n)
      + if ApprovalOf(db, s) == Some(n) && (exists id :: RunsHandler(db, s, id)) then 1 else 0
  }

  /** One approval authorises at most one handler run, and none while it is pending. */
  lemma {:induction false} OneRunPerApproval(genesis: Db, steps: seq<Step>, n: nat)
    requires genesis.tools == NO_TOOLS
    ensures RunsUnder(genesis, steps, n) <= 1
    ensures var approvals := Run(genesis, steps).tools.approvals;
            n >= |approvals| || approvals[n].status.AwaitingDecision? ==> RunsUnder(genesis, steps, n) == 0
  {
    if steps != [] {
      var front, s := steps[..|steps| - 1], steps[|steps| - 1];
      var db := Run(genesis, front);
      OneRunPerApproval(genesis, front, n);
      NextApprovals(db, s);
      if ApprovalOf(db, s) == Some(n) && exists id :: RunsHandler(db, s, id) {
        var id :| RunsHandler(db, s, id);
        RunKeepsTablesSound(genesis, front);
        RunsWhilePending(db, s, id);
      }
    }
  }

  lemma {:induction false} RunsWhilePending(db: Db, s: Step, id: KeyId)
    requires TablesSound(db, db.tools) && ApprovalOf(db, s).Some? && RunsHandler(db, s, id)
    ensures var n := ApprovalOf(db, s).value;
            Commits(db, s) && n < |db.tools.approvals| && db.tools.approvals[n].status.AwaitingDecision?
  {
    RunsHaveGrants(db, s, id);
    LaterKeepsTables(db, Ticked(db, s), db.tools);
    GateIsPending(Ticked(db, s), s.op);
  }

  /** What the gate says of the grant, without the verdict. */
  predicate GrantPasses(db: Db, op: Op) {
    && Locks(db, op)
    && var at := AttemptOf(db, op);
       at.Attempt? && (at.grant.Some? ==> GrantError(at.start, at.grant.value, db.clock).None?)
  }

  lemma {:induction false} RunsHaveGrants(db: Db, s: Step, id: KeyId)
    requires RunsHandler(db, s, id)
    ensures Commits(db, s) && GrantPasses(Ticked(db, s), s.op)
  {
    RunsPassTheGate(db, s, id);
  }

  lemma {:induction false} GateIsPending(db: Db, op: Op)
    requires TablesSound(db, db.tools) && GrantPasses(db, op) && AttemptOf(db, op).grant.Some?
    ensures var n := AttemptOf(db, op).grant.value.approval;
            n < |db.tools.approvals| && db.tools.approvals[n].status.AwaitingDecision?
  {
    var n := AttemptOf(db, op).grant.value.approval;
    assert n < |db.tools.approvals|;
  }

  /* ----- What an approved call is told ----- */

  /** An approval that is given is answered with the stored result, and runs nothing, exactly
      when the action's key is settled on its request; it gets past the key exactly when the
      key is new, or holds the same request and is not settled. */
  lemma {:induction false} ApprovalIsReplayedIff(db: Db, op: Op, env: Env)
    requires Locks(db, op) && op.ApproveAction? && AttemptOf(db, op).Attempt?
    ensures var at, e := AttemptOf(db, op), Worked(db, op, env);
            var id := KeyId(at.start.row.merchant, at.key);
            (e.Done? && e.response.Replay?) <==>
              && ValidInput(at.request) && !Terminal(db.cases[op.i].status)
              && id in db.tools.keys && db.tools.keys[id].request == at.request && Settled(db.tools.keys[id])
    ensures var at := AttemptOf(db, op);
            var id := KeyId(at.start.row.merchant, at.key);
            Admission(at.start, at.request, id, at.grant.Some?).None? <==>
              && ValidInput(at.request) && !Terminal(db.cases[op.i].status)
              && (id in db.tools.keys ==> db.tools.keys[id].request == at.request && !Settled(db.tools.keys[id]))
  {
    var at := AttemptOf(db, op);
    AttemptIsExecution(db, op, env);
    ReplayedIff(db.customers, at.start, at.request, at.key, at.grant, db.merchants[db.cases[op.i].merchant], env, db.clock);
  }

  lemma {:induction false} ReplayedIff(customers: map<CustomerId, MerchantId>, u: Work, r: Request, key: Key,
                       grant: Option<Grant>, settings: PolicySettings, env: Env, now: Micros)
    requires grant.Some?
    ensures var id, e := KeyId(u.row.merchant, key), Execute(customers, u, r, key, grant, settings, env, now);
            (e.Done? && e.response.Replay?) <==>
              && ValidInput(r) && !Terminal(u.row.status)
              && id in u.tools.keys && u.tools.keys[id].request == r && Settled(u.tools.keys[id])
    ensures var id := KeyId(u.row.merchant, key);
            Admission(u, r, id, true).None? <==>
              && ValidInput(r) && !Terminal(u.row.status)
              && (id in u.tools.keys ==> u.tools.keys[id].request == r && !Settled(u.tools.keys[id]))
  {
  }
}
