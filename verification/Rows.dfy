/** Invariants of the action and approval tables: who owns a row, what it may still become,
    and which approval speaks for it. */
module Rows {
  import opened Domain
  import opened Store
  import opened Policy
  import opened PolicyContext
  import opened Processor
  import opened Lifecycle
  import opened Crediting
  import opened Execution
  import opened Tooling
  import opened Engine
  import opened Ledger

  /** A row that a later approval may still run. */
  predicate Open(s: ActionStatus) {
    s.Pending? || s.ApprovalRequired? || s.Approved?
  }

  predicate AtRest(s: ActionStatus) {
    !s.Running? && !s.Completed? && !s.Planned?
  }

  /** The owner of a key: planned keys name their case and one of two tools, and a client's
      key with a row has an answer. */
  ghost predicate OwnerRule(keys: map<KeyId, KeyRecord>, row: Action) {
    match row.keyId.key
    case PlannedKey(i, kind) => i == row.caseId && kind == row.kind && (kind.RetryLater? || kind.SendPaymentLink?)
    case ClientKey(_) => row.keyId in keys && keys[row.keyId].result.Some?
  }

  /** An open discount row stands for the whole amount at risk, and its recorded percentage
      is within the merchant's cap. */
  ghost predicate DiscountRule(db: Db, row: Action)
    requires row.caseId < |db.cases|
  {
    row.kind.OfferDiscount? && Open(row.status) ==>
      && row.amount == db.cases[row.caseId].amountAtRisk
      && row.request.Some? && row.request.value.input.Discount?
      && row.keyId.merchant in db.merchants
      && row.request.value.input.percent <= db.merchants[row.keyId.merchant].maxDiscountPercent
  }

  ghost predicate RowRule(db: Db, keys: map<KeyId, KeyRecord>, row: Action) {
    && row.caseId < |db.cases| && row.keyId.merchant == db.cases[row.caseId].merchant
    && row.createdAt <= db.clock
    && AtRest(row.status)
    && (row.request.Some? ==> row.request.value.tool == row.kind)
    && OwnerRule(keys, row)
    && DiscountRule(db, row)
  }

  ghost predicate DistinctKeys(actions: seq<Action>) {
    forall i, j | 0 <= i < j < |actions| :: actions[i].keyId != actions[j].keyId
  }

  /** An approval speaks for a row of its own case, which remembers a fingerprint. */
  ghost predicate ApprovalRule(actions: seq<Action>, ap: Approval) {
    ap.action < |actions| && actions[ap.action].caseId == ap.caseId && actions[ap.action].fingerprint.Some?
  }

  ghost predicate TablesSound(db: Db, t: Tools) {
    && (forall k | 0 <= k < |t.actions| :: RowRule(db, t.keys, t.actions[k]))
    && DistinctKeys(t.actions)
    && (forall n | 0 <= n < |t.approvals| :: ApprovalRule(t.actions, t.approvals[n]))
  }

  /** The unit of work is on a case of the store, of a known merchant. */
  ghost predicate OnCase(db: Db, u: Work) {
    && u.id < |db.cases| && SameIdentity(db.cases[u.id], u.row) && u.row.merchant in db.merchants
  }

  /* ----- Changes to one row ----- */

  /** A row keeps its owner and its fingerprint. */
  predicate SameOwner(row: Action, row': Action) {
    && row'.keyId == row.keyId && row'.caseId == row.caseId && row'.kind == row.kind && row'.createdAt == row.createdAt
    && (row.fingerprint.Some? ==> row'.fingerprint.Some?)
  }

  predicate AnswersKept(keys: map<KeyId, KeyRecord>, keys': map<KeyId, KeyRecord>) {
    forall id | id in keys && keys[id].result.Some? :: id in keys' && keys'[id].result.Some?
  }

  lemma {:induction false} TouchKeepsTables(db: Db, t: Tools, t': Tools, a: nat, row: Action)
    requires TablesSound(db, t) && a <= |t.actions|
    requires t'.actions == Touched(t.actions, a, row) && t'.approvals == t.approvals && AnswersKept(t.keys, t'.keys)
    requires RowRule(db, t'.keys, row)
    requires if a < |t.actions| then SameOwner(t.actions[a], row) else forall x <- t.actions :: x.keyId != row.keyId
    ensures TablesSound(db, t')
  {
    forall k | 0 <= k < |t'.actions| ensures RowRule(db, t'.keys, t'.actions[k]) {
      if k != a {
        assert RowRule(db, t.keys, t.actions[k]);
      }
    }
    forall i, j | 0 <= i < j < |t'.actions| ensures t'.actions[i].keyId != t'.actions[j].keyId {
      if j < |t.actions| {
        assert t.actions[i].keyId != t.actions[j].keyId;
      } else {
        assert t.actions[i] in t.actions;
      }
    }
    forall n | 0 <= n < |t'.approvals| ensures ApprovalRule(t'.actions, t'.approvals[n]) {
      assert ApprovalRule(t.actions, t.approvals[n]);
    }
  }

  lemma {:induction false} ApprovalKeepsTables(db: Db, t: Tools, ap: Approval)
    requires TablesSound(db, t) && ApprovalRule(t.actions, ap)
    ensures TablesSound(db, t.(approvals := t.approvals + [ap]))
  {
  }

  /* ----- Processing ----- */

  lemma {:induction false} PlanKeepsTables(db: Db, u: Work, kind: ActionKind, status: ActionStatus, request: Option<Request>)
    requires TablesSound(db, u.tools) && OnCase(db, u)
    requires (kind.RetryLater? || kind.SendPaymentLink?) && AtRest(status)
    requires request.Some? ==> request.value.tool == kind
    ensures var t := Plan(u, kind, status, request, db.clock).tools;
            && TablesSound(db, t)
            && PlannedAt(u, kind) < |t.actions| && t.actions[PlannedAt(u, kind)].caseId == u.id
  {
    var found := FindAction(u.tools.actions, PlannedKeyId(u, kind));
    if found.None? {
      var row := Action(PlannedKeyId(u, kind), u.id, kind, status, u.row.amountAtRisk, db.clock, None, None, request, None);
      TouchKeepsTables(db, u.tools, Plan(u, kind, status, request, db.clock).tools, |u.tools.actions|, row);
    } else {
      assert RowRule(db, u.tools.keys, u.tools.actions[found.value]);
    }
  }

  lemma {:induction false} AskKeepsTables(db: Db, u: Work, a: nat, ttl: int)
    requires TablesSound(db, u.tools) && OnCase(db, u)
    requires a < |u.tools.actions| && u.tools.actions[a].caseId == u.id
    ensures TablesSound(db, AskApproval(u, a, ttl, db.clock).tools)
  {
    var row := u.tools.actions[a].(fingerprint := Some(FingerprintOf(u.row)));
    var t := u.tools.(actions := u.tools.actions[a := row]);
    assert RowRule(db, u.tools.keys, u.tools.actions[a]);
    TouchKeepsTables(db, u.tools, t, a, row);
    ApprovalKeepsTables(db, t, Approval(u.id, a, AwaitingDecision, db.clock + ttl));
  }

  lemma {:induction false} RecordedKeepsTables(db: Db, u: Work, kind: ActionKind, d: Decision, ttl: int)
    requires TablesSound(db, u.tools) && OnCase(db, u)
    requires kind.RetryLater? || kind.SendPaymentLink?
    ensures TablesSound(db, Recorded(u, kind, d, ttl, db.clock).tools)
  {
    var status := match d case Deny(_) => Blocked case Ask => ApprovalRequired case Go => Pending;
    var request := if d.Ask? then Some(PlannedRequest(kind, db.clock)) else None;
    PlanKeepsTables(db, u, kind, status, request);
    if d.Ask? {
      var v := Plan(u, kind, status, request, db.clock);
      PlanKeepsCase(u, kind, status, request, db.clock);
      AskKeepsTables(db, v, PlannedAt(u, kind), ttl);
    }
  }

  lemma {:induction false} ProcessKeepsTables(db: Db, u: Work, settings: PolicySettings, env: Env)
    requires TablesSound(db, u.tools) && OnCase(db, u)
    ensures TablesSound(db, ProcessLocked(u, settings, env, db.clock).tools)
  {
    var now := db.clock;
    WalkKeeps(u, now);
    var v := Walked(u, now);
    if v.row.status == PolicyCheck {
      var d, kind := ProcessDecision(v, settings, env, now), ChosenAction(v.row, v.payments);
      RecordedKeepsTables(db, v, kind, d, settings.approvalTtl);
      DecidedTools(v, d, settings.approvalTtl, now);
      assert !SettledForProcessing(u.row.status) ==>
               ProcessLocked(u, settings, env, now) == ProcessDecided(v, d, settings.approvalTtl, now);
    }
  }

  lemma {:induction false} DecidedTools(u: Work, d: Decision, ttl: int, now: Micros)
    requires u.row.status == PolicyCheck
    ensures ProcessDecided(u, d, ttl, now).tools == Recorded(u, ChosenAction(u.row, u.payments), d, ttl, now).tools
  {
    RecordedKeepsCase(u, ChosenAction(u.row, u.payments), d, ttl, now);
    SteeredShape(Recorded(u, ChosenAction(u.row, u.payments), d, ttl, now), d, now);
  }

  /* ----- Execution ----- */

  /** The row that a call is about: a new one under the client's key, or the open row that
      an approval of this case re-enters. */
  ghost predicate Aims(u: Work, r: Request, id: KeyId, grant: Option<Grant>) {
    && id.merchant == u.row.merchant
    && if grant.None? then id.key.ClientKey?
       else
         && grant.value.action < |u.tools.actions|
         && var row := u.tools.actions[grant.value.action];
            row.keyId == id && row.caseId == u.id && row.kind == r.tool && Open(row.status)
  }

  predicate WithinCap(settings: PolicySettings, r: Request) {
    r.tool.OfferDiscount? ==> r.input.Discount? && r.input.percent <= settings.maxDiscountPercent
  }

  lemma {:induction false} AllowedIsWithinCap(u: Work, r: Request, settings: PolicySettings, env: Env, now: Micros)
    requires ValidInput(r) && Judged(u, r, settings, env, now).allowed
    ensures WithinCap(settings, r)
  {
    AllowedIff(BuildContext(u.row, u.id, u.tools, settings, env, now), ProposalOf(r));
  }

  /** A call that is admitted without an approval finds no row under its key. */
  lemma {:induction false} NewKeyHasNoRow(db: Db, u: Work, r: Request, id: KeyId)
    requires TablesSound(db, u.tools) && id.key.ClientKey? && Admission(u, r, id, false).None?
    ensures FindAction(u.tools.actions, id).None?
  {
    var found := FindAction(u.tools.actions, id);
    if found.Some? {
      assert RowRule(db, u.tools.keys, u.tools.actions[found.value]);
    }
  }

  /** The row a run writes, whatever its outcome. */
  lemma {:induction false} UpsertRowRule(db: Db, u: Work, r: Request, id: KeyId, grant: Option<Grant>, status: ActionStatus,
                      request: Option<Request>, keys: map<KeyId, KeyRecord>)
    requires TablesSound(db, u.tools) && OnCase(db, u) && Aims(u, r, id, grant)
    requires grant.None? ==> FindAction(u.tools.actions, id).None?
    requires AnswersKept(u.tools.keys, keys) && id in keys && keys[id].result.Some?
    requires request == None || request == Some(r)
    ensures var a, row := UpsertAt(u, id, Reentered(grant)), UpsertRow(u, r.tool, id, Reentered(grant), status,
        request, db.clock);
            && (if a < |u.tools.actions| then SameOwner(u.tools.actions[a], row)
                else forall x <- u.tools.actions :: x.keyId != row.keyId)
            && row.caseId == u.id && row.kind == r.tool && row.keyId == id && row.createdAt <= db.clock
            && (row.request.Some? ==> row.request.value.tool == row.kind)
            && OwnerRule(keys, row)
            && (r.tool.OfferDiscount? ==> row.amount == u.row.amountAtRisk)
  {
    if grant.Some? {
      assert RowRule(db, u.tools.keys, u.tools.actions[grant.value.action]);
    }
  }

  lemma {:induction false} RunKeepsTables(db: Db, u: Work, r: Request, id: KeyId, grant: Option<Grant>, v: Verdict, ttl: int,
                       ran: Ran, t': Tools)
    requires TablesSound(db, u.tools) && OnCase(db, u) && Aims(u, r, id, grant)
    requires grant.None? ==> FindAction(u.tools.actions, id).None?
    requires v.allowed ==> WithinCap(db.merchants[u.row.merchant], r)
    requires !ran.Lost? && RunShape(u, r, id, grant, v, ttl, db.clock, ran)
    requires AnswersKept(u.tools.keys, t'.keys) && (ran.Finished? ==> id in t'.keys && t'.keys[id].result.Some?)
    requires t'.actions == ran.work.tools.actions && t'.approvals == ran.work.tools.approvals
    ensures TablesSound(db, t')
  {
    if ran.Finished? {
      var a := UpsertAt(u, id, Reentered(grant));
      match ran.result.outcome {
        case RunBlocked =>
          UpsertRowRule(db, u, r, id, grant, Blocked, None, t'.keys);
          TouchKeepsTables(db, u.tools, t', a, UpsertRow(u, r.tool, id, Reentered(grant), Blocked, None, db.clock));
        case NeedsApproval =>
          AskedKeepsTables(db, u, r, id, ttl, ran.work.tools, t');
        case _ =>
          UpsertRowRule(db, u, r, id, grant, Running, Some(r), t'.keys);
          TouchKeepsTables(db, u.tools, t', a, t'.actions[a]);
      }
    } else {
      SameRowsKeepTables(db, u.tools, t');
    }
  }

  lemma {:induction false} AskedKeepsTables(db: Db, u: Work, r: Request, id: KeyId, ttl: int, ran: Tools, t': Tools)
    requires TablesSound(db, u.tools) && OnCase(db, u) && Aims(u, r, id, None)
    requires FindAction(u.tools.actions, id).None? && WithinCap(db.merchants[u.row.merchant], r)
    requires AskedTools(u, ran, r, id, ttl, db.clock)
    requires AnswersKept(u.tools.keys, t'.keys) && id in t'.keys && t'.keys[id].result.Some?
    requires t'.actions == ran.actions && t'.approvals == ran.approvals
    ensures TablesSound(db, t')
  {
    var a := UpsertAt(u, id, None);
    var row, ap := AskedRow(u, r, id, db.clock), Approval(u.id, a, AwaitingDecision, db.clock + ttl);
    var t := t'.(approvals := u.tools.approvals);
    UpsertRowRule(db, u, r, id, None, ApprovalRequired, Some(r), t'.keys);
    TouchKeepsTables(db, u.tools, t, a, row);
    ApprovalKeepsTables(db, t, ap);
    assert t' == t.(approvals := t.approvals + [ap]);
  }

  lemma {:induction false} SameRowsKeepTables(db: Db, t: Tools, t': Tools)
    requires TablesSound(db, t) && t'.actions == t.actions && t'.approvals == t.approvals && AnswersKept(t.keys, t'.keys)
    ensures TablesSound(db, t')
  {
    forall k | 0 <= k < |t'.actions| ensures RowRule(db, t'.keys, t'.actions[k]) {
      assert RowRule(db, t.keys, t.actions[k]);
    }
  }

  lemma {:induction false} OpenedKeepsTables(db: Db, u: Work, id: KeyId, r: Request)
    requires TablesSound(db, u.tools)
    ensures TablesSound(db, Opened(u, id, r).tools)
  {
    SameRowsKeepTables(db, u.tools, Opened(u, id, r).tools);
  }

  lemma {:induction false} ConcludedTables(db: Db, begun: Work, id: KeyId, r: Request, ran: Ran)
    requires id in begun.tools.keys && !ran.Lost? && ran.work.tools.keys == begun.tools.keys
    ensures var t := Conclude(begun, id, r, ran).work.tools;
            && t.actions == ran.work.tools.actions && t.approvals == ran.work.tools.approvals
            && t.notices == ran.work.tools.notices
            && AnswersKept(begun.tools.keys, t.keys)
            && (ran.Finished? ==> id in t.keys && t.keys[id].result.Some?)
  {
  }

  lemma {:induction false} ConclusionKeepsTables(db: Db, u: Work, r: Request, id: KeyId, grant: Option<Grant>,
          v: Verdict, ttl: int, ran: Ran)
    requires TablesSound(db, u.tools) && OnCase(db, u) && Aims(u, r, id, grant)
    requires Admission(u, r, id, grant.Some?).None?
    requires v.allowed ==> WithinCap(db.merchants[u.row.merchant], r)
    requires !ran.Lost? && RunShape(Opened(u, id, r), r, id, grant, v, ttl, db.clock, ran)
    ensures TablesSound(db, Conclude(Opened(u, id, r), id, r, ran).work.tools)
  {
    var begun := Opened(u, id, r);
    OpenedKeepsTables(db, u, id, r);
    if grant.None? {
      NewKeyHasNoRow(db, u, r, id);
    }
    RunLeavesKeys(begun, r, id, grant, v, ttl, db.clock, ran);
    ConcludedTables(db, begun, id, r, ran);
    RunKeepsTables(db, begun, r, id, grant, v, ttl, ran, Conclude(begun, id, r, ran).work.tools);
  }

  lemma {:induction false} ExecuteKeepsTables(db: Db, u: Work, r: Request, key: Key, grant: Option<Grant>, env: Env)
    requires TablesSound(db, u.tools) && OnCase(db, u) && Aims(u, r, KeyId(u.row.merchant, key), grant)
    ensures var done := Execute(db.customers, u, r, key, grant, db.merchants[u.row.merchant], env, db.clock);
            done.Crashed? || TablesSound(db, done.work.tools)
  {
    var id, settings, now := KeyId(u.row.merchant, key), db.merchants[u.row.merchant], db.clock;
    if Admission(u, r, id, grant.Some?).None? {
      var begun := Opened(u, id, r);
      var v := Judged(begun, r, settings, env, now);
      var ran := RunJudged(db.customers, begun, r, id, grant, v, settings.approvalTtl, env, now);
      RunJudgedShape(db.customers, begun, r, id, grant, v, settings.approvalTtl, env, now);
      if v.allowed {
        AllowedIsWithinCap(begun, r, settings, env, now);
      }
      if !ran.Lost? {
        ConclusionKeepsTables(db, u, r, id, grant, v, settings.approvalTtl, ran);
      }
      assert Execute(db.customers, u, r, key, grant, settings, env, now) == Conclude(begun, id, r, ran);
    }
  }

  /* ----- Approvals ----- */

  lemma {:induction false} DecisionOnApprovalKeepsTables(db: Db, u: Work, n: nat, status: ApprovalStatus)
    requires TablesSound(db, u.tools) && n < |u.tools.approvals|
    ensures TablesSound(db, SetApproval(u, n, status).tools)
  {
    var t := SetApproval(u, n, status).tools;
    forall m | 0 <= m < |t.approvals| ensures ApprovalRule(t.actions, t.approvals[m]) {
      assert ApprovalRule(u.tools.actions, u.tools.approvals[m]);
    }
  }

  lemma {:induction false} StatusKeepsTables(db: Db, u: Work, a: nat, status: ActionStatus)
    requires TablesSound(db, u.tools) && a < |u.tools.actions|
    requires AtRest(status) && (Open(status) ==> Open(u.tools.actions[a].status))
    ensures TablesSound(db, SetAction(u, a, status).tools)
  {
    assert RowRule(db, u.tools.keys, u.tools.actions[a]);
    TouchKeepsTables(db, u.tools, SetAction(u, a, status).tools, a, u.tools.actions[a].(status := status));
  }

  lemma {:induction false} ApproveKeepsTables(db: Db, u: Work, a: nat, env: Env)
    requires TablesSound(db, u.tools) && OnCase(db, u)
    ensures var done := Approve(db.customers, u, a, db.merchants[u.row.merchant], env, db.clock);
            done.Crashed? || TablesSound(db, done.work.tools)
  {
    var found := FindApproval(u, a);
    if found.Some? {
      var n := found.value;
      var v := ExpireIfNeeded(u, n, db.clock);
      DecisionOnApprovalKeepsTables(db, u, n, Expired);
      if ApprovalRefusal(v, a, n).None? {
        ApprovingAims(db, v, a, n);
        ExecuteKeepsTables(db, Approving(v, a, n), RecordedRequest(v.tools.actions[a]), v.tools.actions[a].keyId.key,
            Some(Grant(n, a)), env);
      }
    }
  }

  /** An approval that can be given re-enters execution with an open row of its own case. */
  lemma {:induction false} ApprovingAims(db: Db, v: Work, a: nat, n: nat)
    requires TablesSound(db, v.tools) && OnCase(db, v)
    requires a < |v.tools.actions| && n < |v.tools.approvals| && ApprovalRefusal(v, a, n).None?
    requires v.tools.actions[a].keyId.merchant == v.row.merchant
    requires v.tools.approvals[n].caseId == v.id && v.tools.approvals[n].action == a
    ensures var w, row := Approving(v, a, n), v.tools.actions[a];
            && TablesSound(db, w.tools) && OnCase(db, w)
            && Aims(w, RecordedRequest(row), KeyId(w.row.merchant, row.keyId.key), Some(Grant(n, a)))
  {
    assert RowRule(db, v.tools.keys, v.tools.actions[a]);
    assert ApprovalRule(v.tools.actions, v.tools.approvals[n]);
    DecisionOnApprovalKeepsTables(db, v, n, Granted);
    StatusKeepsTables(db, SetApproval(v, n, Granted), a, Approved);
  }

  lemma {:induction false} RejectKeepsTables(db: Db, u: Work, a: nat)
    requires TablesSound(db, u.tools) && OnCase(db, u)
    ensures TablesSound(db, Reject(u, a, db.clock).tools)
  {
    var found := FindApproval(u, a);
    if found.Some? {
      var v := SetApproval(u, found.value, Rejected);
      DecisionOnApprovalKeepsTables(db, u, found.value, Rejected);
      StatusKeepsTables(db, v, a, ActionCancelled);
      SameRowsKeepTables(db, SetAction(v, a, ActionCancelled).tools, Rejecting(u, a, found.value).tools);
    }
  }

  /* ----- Every step ----- */

  lemma {:induction false} WorkKeepsTables(db: Db, op: Op, env: Env)
    requires TablesSound(db, db.tools) && Locks(db, op)
    ensures var done := Worked(db, op, env);
            done.Crashed? || TablesSound(db, done.work.tools)
  {
    var u := Begin(db, CaseOf(op).value);
    var settings, now := db.merchants[u.row.merchant], db.clock;
    match op {
      case ProcessCase(_) => ProcessKeepsTables(db, u, settings, env);
      case VerifyCase(_, payment, event) =>
        VerifyTools(db, u, payment, event, settings, env, now);
        ProcessKeepsTables(db, u, settings, env);
      case PreparePolicyCheck(_) => WalkKeeps(u, now);
      case ExecuteTool(_, request, name) => ExecuteKeepsTables(db, u, request, ClientKey(name), None, env);
      case ApproveAction(_, a) => ApproveKeepsTables(db, u, a, env);
      case RejectAction(_, a) => RejectKeepsTables(db, u, a);
      case Advance(_, stages) => AdvancedKeepsTools(u, 0, stages, now);
      case FailClosed(_) =>
    }
  }

  /** Later states have every case with the same identity, and a later clock. */
  ghost predicate Later(db: Db, db': Db) {
    && db'.merchants == db.merchants && db'.clock >= db.clock
    && |db'.cases| >= |db.cases|
    && forall i | 0 <= i < |db.cases| :: SameIdentity(db.cases[i], db'.cases[i])
  }

  lemma {:induction false} LaterKeepsTables(db: Db, db': Db, t: Tools)
    requires Later(db, db') && TablesSound(db, t)
    ensures TablesSound(db', t)
  {
    forall k | 0 <= k < |t.actions| ensures RowRule(db', t.keys, t.actions[k]) {
      assert RowRule(db, t.keys, t.actions[k]);
    }
  }

  lemma {:induction false} NextIsLater(db: Db, s: Step)
    ensures Later(db, Next(db, s)) && Next(db, s).customers == db.customers
    ensures Next(db, s).clock == db.clock + s.delay
  {
    forall i | 0 <= i < |db.cases| ensures i < |Next(db, s).cases| && SameIdentity(db.cases[i], Next(db, s).cases[i]) {
      NextFreezes(db, s, i);
    }
    NextShape(db, s);
    NextKeepsSettings(db, s);
  }

  lemma {:induction false} NextKeepsSettings(db: Db, s: Step)
    ensures var db' := Next(db, s);
            && db'.merchants == db.merchants && db'.customers == db.customers && db'.clock == db.clock + s.delay
            && |db'.cases| >= |db.cases|
  {
    NextShape(db, s);
  }

  lemma {:induction false} NextKeepsTables(db: Db, s: Step)
    requires TablesSound(db, db.tools)
    ensures TablesSound(Next(db, s), Next(db, s).tools)
  {
    var t := Ticked(db, s);
    LaterKeepsTables(db, t, db.tools);
    NextIsLater(db, s);
    NextShape(db, s);
    if Commits(db, s) {
      WorkKeepsTables(t, s.op, s.env);
    }
    LaterKeepsTables(t, Next(db, s), Next(db, s).tools);
  }

  lemma {:induction false} RunKeepsTablesSound(genesis: Db, steps: seq<Step>)
    requires genesis.tools == NO_TOOLS
    ensures var db := Run(genesis, steps); TablesSound(db, db.tools)
  {
    if steps != [] {
      RunKeepsTablesSound(genesis, steps[..|steps| - 1]);
      NextKeepsTables(Run(genesis, steps[..|steps| - 1]), steps[|steps| - 1]);
    }
  }
}
