/** The retry limit of a case, and how an approved action meets its own row when policy
    counts what has been done. */
module Retries {
  import opened Domain
  import opened Store
  import opened Policy
  import opened PolicyContext
  import opened Processor
  import opened Lifecycle
  import opened Execution
  import opened Tooling
  import opened Engine
  import opened Ledger
  import opened Rows
  import opened Gating
  import opened Quotas

  predicate IsRetry(a: ActionKind) {
    a.RetryNow? || a.RetryLater?
  }

  /** The row counts as a retry of case i. */
  predicate CountsFor(row: Action, i: nat) {
    row.caseId == i && row.kind in RETRY_ACTIONS && row.status in COUNTED_RETRIES
  }

  lemma {:induction false} OneMoreRetry(actions: seq<Action>, row: Action, i: nat)
    ensures RetryCount(actions + [row], i) == RetryCount(actions, i) + if CountsFor(row, i) then 1 else 0
  {
    assert (actions + [row])[..|actions + [row]| - 1] == actions;
  }

  lemma {:induction false} RetryChanged(actions: seq<Action>, a: nat, row: Action, i: nat)
    requires a < |actions|
    ensures RetryCount(actions[a := row], i) + (if CountsFor(actions[a], i) then 1 else 0)
            == RetryCount(actions, i) + if CountsFor(row, i) then 1 else 0
  {
    var n := |actions| - 1;
    if a < n {
      RetryChanged(actions[..n], a, row, i);
      assert actions[a := row][..n] == actions[..n][a := row];
    } else {
      assert actions[a := row][..n] == actions[..n];
    }
  }

  ghost predicate NoMoreRetries(actions: seq<Action>, actions': seq<Action>) {
    forall i: nat :: RetryCount(actions', i) <= RetryCount(actions, i)
  }

  /** A row that is replaced by one that counts no more, or added without counting. */
  lemma {:induction false} QuieterRow(actions: seq<Action>, a: nat, row: Action)
    requires a <= |actions|
    requires forall i: nat :: CountsFor(row, i) ==> a < |actions| && CountsFor(actions[a], i)
    ensures NoMoreRetries(actions, Touched(actions, a, row))
  {
    forall i: nat ensures RetryCount(Touched(actions, a, row), i) <= RetryCount(actions, i) {
      if a < |actions| {
        RetryChanged(actions, a, row, i);
      } else {
        OneMoreRetry(actions, row, i);
      }
    }
  }

  /** No case has more counted retries than its merchant allows. */
  ghost predicate WithinRetries(db: Db, actions: seq<Action>) {
    forall i | 0 <= i < |db.cases| && db.cases[i].merchant in db.merchants ::
      RetryCount(actions, i) <= Quota(db.merchants[db.cases[i].merchant].maxRetries)
  }

  lemma {:induction false} FewerKeepsWithin(db: Db, actions: seq<Action>, actions': seq<Action>)
    requires WithinRetries(db, actions) && NoMoreRetries(actions, actions')
    ensures WithinRetries(db, actions')
  {
    forall i | 0 <= i < |db.cases| && db.cases[i].merchant in db.merchants
      ensures RetryCount(actions', i) <= Quota(db.merchants[db.cases[i].merchant].maxRetries)
    {
      assert RetryCount(actions', i) <= RetryCount(actions, i);
    }
  }

  /** There is room for one more retry of the locked case. */
  predicate HasRoom(u: Work, settings: PolicySettings) {
    RetryCount(u.tools.actions, u.id) < settings.maxRetries
  }

  /** A new row of the locked case, which is no retry or finds room. */
  lemma {:induction false} NewRowKeepsWithin(db: Db, u: Work, row: Action)
    requires WithinRetries(db, u.tools.actions) && OnCase(db, u)
    requires forall i: nat :: CountsFor(row, i) ==> i == u.id && HasRoom(u, db.merchants[u.row.merchant])
    ensures WithinRetries(db, u.tools.actions + [row])
  {
    forall i | 0 <= i < |db.cases| && db.cases[i].merchant in db.merchants
      ensures RetryCount(u.tools.actions + [row], i) <= Quota(db.merchants[db.cases[i].merchant].maxRetries)
    {
      OneMoreRetry(u.tools.actions, row, i);
      assert RetryCount(u.tools.actions, i) <= Quota(db.merchants[db.cases[i].merchant].maxRetries);
    }
  }

  /* ----- Processing ----- */

  lemma {:induction false} PlanKeepsWithin(db: Db, u: Work, kind: ActionKind, status: ActionStatus, request: Option<Request>)
    requires WithinRetries(db, u.tools.actions) && OnCase(db, u)
    requires IsRetry(kind) && status in COUNTED_RETRIES ==> HasRoom(u, db.merchants[u.row.merchant])
    ensures WithinRetries(db, Plan(u, kind, status, request, db.clock).tools.actions)
  {
    if FindAction(u.tools.actions, PlannedKeyId(u, kind)).None? {
      var row := Action(PlannedKeyId(u, kind), u.id, kind, status, u.row.amountAtRisk, db.clock, None, None, request, None);
      NewRowKeepsWithin(db, u, row);
    }
  }

  lemma {:induction false} AskKeepsRetries(u: Work, a: nat, ttl: int, now: Micros)
    requires a < |u.tools.actions|
    ensures NoMoreRetries(u.tools.actions, AskApproval(u, a, ttl, now).tools.actions)
  {
    QuieterRow(u.tools.actions, a, u.tools.actions[a].(fingerprint := Some(FingerprintOf(u.row))));
  }

  lemma {:induction false} RecordedKeepsWithin(db: Db, u: Work, kind: ActionKind, d: Decision, ttl: int)
    requires WithinRetries(db, u.tools.actions) && OnCase(db, u)
    requires !d.Deny? && IsRetry(kind) ==> HasRoom(u, db.merchants[u.row.merchant])
    ensures WithinRetries(db, Recorded(u, kind, d, ttl, db.clock).tools.actions)
  {
    var status := match d case Deny(_) => Blocked case Ask => ApprovalRequired case Go => Pending;
    var request := if d.Ask? then Some(PlannedRequest(kind, db.clock)) else None;
    PlanKeepsWithin(db, u, kind, status, request);
    if d.Ask? {
      var v := Plan(u, kind, status, request, db.clock);
      AskKeepsRetries(v, PlannedAt(u, kind), ttl, db.clock);
      FewerKeepsWithin(db, v.tools.actions, AskApproval(v, PlannedAt(u, kind), ttl, db.clock).tools.actions);
    }
  }

  lemma {:induction false} AllowedHasRoom(u: Work, p: Proposal, settings: PolicySettings, env: Env, now: Micros)
    requires Evaluate(BuildContext(u.row, u.id, u.tools, settings, env, now), p).allowed
    requires p.Proposal? && IsRetry(p.kind)
    ensures HasRoom(u, settings)
  {
    AllowedIff(BuildContext(u.row, u.id, u.tools, settings, env, now), p);
  }

  lemma {:induction false} DecisionHasRoom(u: Work, settings: PolicySettings, env: Env, now: Micros)
    requires !ProcessDecision(u, settings, env, now).Deny? && IsRetry(ChosenAction(u.row, u.payments))
    ensures HasRoom(u, settings)
  {
    AllowedHasRoom(u, Proposal(ChosenAction(u.row, u.payments), None, None), settings, env, now);
  }

  lemma {:induction false} ProcessKeepsWithin(db: Db, u: Work, env: Env)
    requires WithinRetries(db, u.tools.actions) && OnCase(db, u)
    ensures WithinRetries(db, ProcessLocked(u, db.merchants[u.row.merchant], env, db.clock).tools.actions)
  {
    var settings, now := db.merchants[u.row.merchant], db.clock;
    WalkKeeps(u, now);
    var v := Walked(u, now);
    if v.row.status == PolicyCheck {
      var d, kind := ProcessDecision(v, settings, env, now), ChosenAction(v.row, v.payments);
      if !d.Deny? && IsRetry(kind) {
        DecisionHasRoom(v, settings, env, now);
      }
      RecordedKeepsWithin(db, v, kind, d, settings.approvalTtl);
      DecidedTools(v, d, settings.approvalTtl, now);
      assert !SettledForProcessing(u.row.status) ==>
               ProcessLocked(u, settings, env, now) == ProcessDecided(v, d, settings.approvalTtl, now);
    }
  }

  /* ----- Execution ----- */

  /** An open row counts already, so re-entering it adds no retry. */
  lemma {:induction false} GrantedRunAddsNoRetry(u: Work, r: Request, id: KeyId, grant: Option<Grant>, v: Verdict,
          ttl: int, now: Micros, ran: Ran)
    requires Aims(u, r, id, grant) && grant.Some?
    requires !ran.Lost? && RunShape(u, r, id, grant, v, ttl, now, ran)
    ensures NoMoreRetries(u.tools.actions, ran.work.tools.actions)
  {
    if ran.Finished? {
      QuieterRow(u.tools.actions, grant.value.action, ran.work.tools.actions[grant.value.action]);
    }
  }

  lemma {:induction false} FirstRunKeepsWithin(db: Db, u: Work, r: Request, id: KeyId, v: Verdict, ttl: int, ran: Ran)
    requires WithinRetries(db, u.tools.actions) && OnCase(db, u) && FindAction(u.tools.actions, id).None?
    requires v.allowed && IsRetry(r.tool) ==> HasRoom(u, db.merchants[u.row.merchant])
    requires !ran.Lost? && RunShape(u, r, id, None, v, ttl, db.clock, ran)
    ensures WithinRetries(db, ran.work.tools.actions)
  {
    if ran.Finished? {
      var row := ran.work.tools.actions[|u.tools.actions|];
      assert ran.work.tools.actions == u.tools.actions + [row];
      NewRowKeepsWithin(db, u, row);
    }
  }

  lemma {:induction false} RunKeepsWithin(db: Db, u: Work, r: Request, id: KeyId, grant: Option<Grant>, v: Verdict,
          ttl: int, ran: Ran)
    requires TablesSound(db, u.tools) && OnCase(db, u) && Aims(u, r, id, grant)
    requires Admission(u, r, id, grant.Some?).None?
    requires WithinRetries(db, u.tools.actions)
    requires v.allowed && IsRetry(r.tool) ==> HasRoom(u, db.merchants[u.row.merchant])
    requires !ran.Lost? && RunShape(Opened(u, id, r), r, id, grant, v, ttl, db.clock, ran)
    ensures WithinRetries(db, ran.work.tools.actions)
  {
    var begun := Opened(u, id, r);
    if grant.None? {
      NewKeyHasNoRow(db, u, r, id);
      FirstRunKeepsWithin(db, begun, r, id, v, ttl, ran);
    } else {
      GrantedRunAddsNoRetry(begun, r, id, grant, v, ttl, db.clock, ran);
      FewerKeepsWithin(db, u.tools.actions, ran.work.tools.actions);
    }
  }

  lemma {:induction false} ExecuteKeepsWithin(db: Db, u: Work, r: Request, key: Key, grant: Option<Grant>, env: Env)
    requires TablesSound(db, u.tools) && OnCase(db, u) && Aims(u, r, KeyId(u.row.merchant, key), grant)
    requires WithinRetries(db, u.tools.actions)
    ensures var done := Execute(db.customers, u, r, key, grant, db.merchants[u.row.merchant], env, db.clock);
            done.Crashed? || WithinRetries(db, done.work.tools.actions)
  {
    var id, settings, now := KeyId(u.row.merchant, key), db.merchants[u.row.merchant], db.clock;
    if Admission(u, r, id, grant.Some?).None? {
      var begun := Opened(u, id, r);
      var v := Judged(begun, r, settings, env, now);
      if v.allowed && IsRetry(r.tool) {
        AllowedHasRoom(begun, ProposalOf(r), settings, env, now);
      }
      var ran := RunJudged(db.customers, begun, r, id, grant, v, settings.approvalTtl, env, now);
      RunJudgedShape(db.customers, begun, r, id, grant, v, settings.approvalTtl, env, now);
      if !ran.Lost? {
        RunKeepsWithin(db, u, r, id, grant, v, settings.approvalTtl, ran);
        RunLeavesKeys(begun, r, id, grant, v, settings.approvalTtl, now, ran);
        ConcludedTables(db, begun, id, r, ran);
      }
      assert Execute(db.customers, u, r, key, grant, settings, env, now) == Conclude(begun, id, r, ran);
    }
  }

  /* ----- Every step ----- */

  lemma {:induction false} AttemptAddsNoRetry(db: Db, op: Op)
    requires TablesSound(db, db.tools) && Locks(db, op) && AttemptOf(db, op).Attempt?
    ensures var at := AttemptOf(db, op);
            && TablesSound(db, at.start.tools) && OnCase(db, at.start)
            && Aims(at.start, at.request, KeyId(at.start.row.merchant, at.key), at.grant)
            && NoMoreRetries(db.tools.actions, at.start.tools.actions)
  {
    if op.ApproveAction? {
      var u := Begin(db, op.i);
      var n := FindApproval(u, op.action).value;
      var v := ExpireIfNeeded(u, n, db.clock);
      DecisionOnApprovalKeepsTables(db, u, n, Expired);
      ApprovingAims(db, v, op.action, n);
      QuieterRow(db.tools.actions, op.action, db.tools.actions[op.action].(status := Approved));
    }
  }

  lemma {:induction false} WorkKeepsWithin(db: Db, op: Op, env: Env)
    requires TablesSound(db, db.tools) && WithinRetries(db, db.tools.actions) && Locks(db, op)
    ensures var done := Worked(db, op, env);
            done.Crashed? || WithinRetries(db, done.work.tools.actions)
  {
    var at := AttemptOf(db, op);
    if at.Attempt? {
      AttemptAddsNoRetry(db, op);
      AttemptIsExecution(db, op, env);
      FewerKeepsWithin(db, db.tools.actions, at.start.tools.actions);
      ExecuteKeepsWithin(db, at.start, at.request, at.key, at.grant, env);
    } else {
      NoAttemptIsQuiet(db, op, env);
      QuietKeepsWithin(db, op, env, Worked(db, op, env).work);
    }
  }

  lemma {:induction false} QuietKeepsWithin(db: Db, op: Op, env: Env, w: Work)
    requires WithinRetries(db, db.tools.actions) && Locks(db, op) && QuietWork(db, op, env, w)
    ensures WithinRetries(db, w.tools.actions)
  {
    var u := Begin(db, CaseOf(op).value);
    ProcessKeepsWithin(db, u, env);
    if op.RejectAction? && FindApproval(u, op.action).Some? {
      QuieterRow(u.tools.actions, op.action, u.tools.actions[op.action].(status := ActionCancelled));
      FewerKeepsWithin(db, u.tools.actions, Reject(u, op.action, db.clock).tools.actions);
    }
  }

  /** Cases that no action row names have no retries. */
  lemma {:induction false} NewCaseHasNoRetries(db: Db, actions: seq<Action>, i: nat)
    requires forall k | 0 <= k < |actions| :: actions[k].caseId < i
    ensures RetryCount(actions, i) == 0
  {
    if actions != [] {
      NewCaseHasNoRetries(db, actions[..|actions| - 1], i);
    }
  }

  lemma {:induction false} LaterKeepsWithin(db: Db, db': Db)
    requires WithinRetries(db, db'.tools.actions) && Later(db, db') && TablesSound(db, db'.tools)
    ensures WithinRetries(db', db'.tools.actions)
  {
    forall i | 0 <= i < |db'.cases| && db'.cases[i].merchant in db'.merchants
      ensures RetryCount(db'.tools.actions, i) <= Quota(db'.merchants[db'.cases[i].merchant].maxRetries)
    {
      if i < |db.cases| {
        assert SameIdentity(db.cases[i], db'.cases[i]);
      } else {
        forall k | 0 <= k < |db'.tools.actions| ensures db'.tools.actions[k].caseId < i {
          assert RowRule(db, db'.tools.keys, db'.tools.actions[k]);
        }
        NewCaseHasNoRetries(db, db'.tools.actions, i);
      }
    }
  }

  lemma {:induction false} NextKeepsWithin(db: Db, s: Step)
    requires TablesSound(db, db.tools) && WithinRetries(db, db.tools.actions)
    ensures WithinRetries(Next(db, s), Next(db, s).tools.actions)
  {
    var t, db' := Ticked(db, s), Next(db, s);
    LaterKeepsTables(db, t, db.tools);
    NextShape(db, s);
    NextIsLater(db, s);
    if Commits(db, s) {
      WorkKeepsTables(t, s.op, s.env);
      WorkKeepsWithin(t, s.op, s.env);
    }
    LaterKeepsWithin(t, db');
  }

  /** Retry limit: in every reachable state no case has more pending, running or successful
      retries than its merchant's limit, over processing, execution, approval and rejection. */
  lemma {:induction false} RetriesStayWithinLimit(genesis: Db, steps: seq<Step>)
    requires genesis.tools == NO_TOOLS
    ensures var db := Run(genesis, steps); WithinRetries(db, db.tools.actions)
  {
    if steps != [] {
      var front := steps[..|steps| - 1];
      RetriesStayWithinLimit(genesis, front);
      RunKeepsTablesSound(genesis, front);
      NextKeepsWithin(Run(genesis, front), steps[|steps| - 1]);
    }
  }

  /* ----- An approved action and its own row ----- */

  /** When an approval is given, policy judges the action with its own row among those it
      counts: the retry limit denies an approved retry exactly when the limit has no room for
      one more besides it, although the row itself was within the limit. */
  lemma {:induction false} ApprovedRetryCountsItself(u: Work, a: nat, n: nat, settings: PolicySettings, env: Env,
          now: Micros)
    requires a < |u.tools.actions| && n < |u.tools.approvals|
    requires var row := u.tools.actions[a]; CountsFor(row, u.id) && RecordedRequest(row).tool == row.kind
    ensures RetryCount(Approving(u, a, n).tools.actions, u.id) == RetryCount(u.tools.actions, u.id) > 0
    ensures var v := Judged(Approving(u, a, n), RecordedRequest(u.tools.actions[a]), settings, env, now);
            && (RetryLimit in v.rules <==> RetryCount(u.tools.actions, u.id) >= settings.maxRetries)
            && (RetryLimit in v.rules ==> !v.allowed)
  {
    var w, r := Approving(u, a, n), RecordedRequest(u.tools.actions[a]);
    RetryChanged(u.tools.actions, a, u.tools.actions[a].(status := Approved), u.id);
    CountsOne(u.tools.actions, a, u.id);
    LimitIsCount(w, r, settings, env, now);
  }

  lemma {:induction false} LimitIsCount(w: Work, r: Request, settings: PolicySettings, env: Env, now: Micros)
    requires IsRetry(r.tool)
    ensures RetryLimit in Judged(w, r, settings, env, now).rules <==> RetryCount(w.tools.actions, w.id) >= settings.maxRetries
    ensures Judged(w, r, settings, env, now).allowed ==> RetryCount(w.tools.actions, w.id) < settings.maxRetries
  {
    var c := BuildContext(w.row, w.id, w.tools, settings, env, now);
    RulesIff(c, ProposalOf(r), RetryLimit);
    AllowedIff(c, ProposalOf(r));
  }

  lemma {:induction false} CountsOne(actions: seq<Action>, a: nat, i: nat)
    requires a < |actions| && CountsFor(actions[a], i)
    ensures RetryCount(actions, i) > 0
  {
    if a < |actions| - 1 {
      CountsOne(actions[..|actions| - 1], a, i);
    }
  }

  /** In every run, an approved retry runs its handler only below the limit, its own row
      included: with a limit of one, no approved retry ever runs. */
  lemma {:induction false} ApprovedRetryNeedsRoom(genesis: Db, steps: seq<Step>, s: Step, id: KeyId)
    requires genesis.tools == NO_TOOLS && s.op.ApproveAction?
    requires var db := Run(genesis, steps);
             && RunsHandler(db, s, id)
             && s.op.action < |db.tools.actions| && IsRetry(db.tools.actions[s.op.action].kind)
    ensures var db := Run(genesis, steps);
            && Locks(db, s.op)
            && var limit := db.merchants[db.cases[s.op.i].merchant].maxRetries;
               0 < RetryCount(db.tools.actions, s.op.i) < limit && limit >= 2
  {
    var db := Run(genesis, steps);
    RunsPassTheGate(db, s, id);
    RunKeepsTablesSound(genesis, steps);
    LaterKeepsTables(db, Ticked(db, s), db.tools);
    GateNeedsRoom(Ticked(db, s), s.op, s.env);
  }

  lemma {:induction false} GateNeedsRoom(db: Db, op: Op, env: Env)
    requires TablesSound(db, db.tools) && Locks(db, op) && op.ApproveAction? && AttemptOf(db, op).Attempt?
    requires op.action < |db.tools.actions| && IsRetry(db.tools.actions[op.action].kind)
    requires var at := AttemptOf(db, op);
             Judged(at.start, at.request, db.merchants[at.start.row.merchant], env, db.clock).allowed
    ensures 0 < RetryCount(db.tools.actions, op.i) < db.merchants[db.cases[op.i].merchant].maxRetries
  {
    var at, row := AttemptOf(db, op), db.tools.actions[op.action];
    AttemptedRow(db, op);
    CountsOne(db.tools.actions, op.action, op.i);
    RetryChanged(db.tools.actions, op.action, row.(status := Approved), op.i);
    LimitIsCount(at.start, at.request, db.merchants[at.start.row.merchant], env, db.clock);
  }
}
