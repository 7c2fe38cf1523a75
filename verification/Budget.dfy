/** The daily discount budget: policy weighs the unrounded discount, the handler stores the
    rounded one, and open rows stand for the whole amount at risk; together they keep the
    discounts granted on a day within the merchant's budget. */
module Budget {
  import opened Domain
  import opened Store
  import opened Money
  import opened Policy
  import opened PolicyContext
  import opened Processor
  import opened Execution
  import opened Tooling
  import opened Engine
  import opened Ledger
  import opened Rows
  import opened Gating

  function DayOf(t: Micros): nat {
    t / MICROS_PER_DAY
  }

  predicate OnDay(row: Action, m: MerchantId, day: nat) {
    row.kind.OfferDiscount? && row.keyId.merchant == m && DayOf(row.createdAt) == day
  }

  /** The discounts granted by rows that were created on a day. */
  function Granted(actions: seq<Action>, m: MerchantId, day: nat): nat {
    if actions == [] then 0
    else
      var row := actions[|actions| - 1];
      Granted(actions[..|actions| - 1], m, day) + if OnDay(row, m, day) && row.status.Succeeded? then row.amount else 0
  }

  function AtLeastZero(x: int): nat {
    if x < 0 then 0 else x
  }

  /** What a row has cost or may still cost: an open row will be granted what it asked for. */
  function Weight(row: Action): nat {
    if row.status.Succeeded? then row.amount
    else if Open(row.status) && row.request.Some? && row.request.value.input.Discount?
    then AtLeastZero(DiscountPaise(row.amount, row.request.value.input.percent))
    else 0
  }

  function Committed(actions: seq<Action>, m: MerchantId, day: nat): nat {
    if actions == [] then 0
    else
      var row := actions[|actions| - 1];
      Committed(actions[..|actions| - 1], m, day) + if OnDay(row, m, day) then Weight(row) else 0
  }

  lemma {:induction false} GrantedIsCommitted(actions: seq<Action>, m: MerchantId, day: nat)
    ensures Granted(actions, m, day) <= Committed(actions, m, day)
  {
    if actions != [] {
      GrantedIsCommitted(actions[..|actions| - 1], m, day);
    }
  }

  /** The whole paise that a budget allows, and no discount over the whole amount. */
  function Allowance(s: PolicySettings): nat {
    AtLeastZero(RoundHalfUp(s.dailyBudget))
  }

  ghost predicate CapsAreFractions(db: Db) {
    forall m | m in db.merchants :: db.merchants[m].maxDiscountPercent <= 100.0
  }

  ghost predicate BudgetKept(db: Db, actions: seq<Action>) {
    forall m, day | m in db.merchants :: Committed(actions, m, day) <= Allowance(db.merchants[m])
  }

  ghost predicate NoCostlier(actions: seq<Action>, actions': seq<Action>) {
    forall m, day :: Committed(actions', m, day) <= Committed(actions, m, day)
  }

  /* ----- Sums over rows ----- */

  lemma {:induction false} OneMoreRow(actions: seq<Action>, row: Action, m: MerchantId, day: nat)
    ensures Committed(actions + [row], m, day) == Committed(actions, m, day) + if OnDay(row, m, day) then Weight(row) else 0
  {
    assert (actions + [row])[..|actions + [row]| - 1] == actions;
  }

  lemma {:induction false} RowChanged(actions: seq<Action>, a: nat, row: Action, m: MerchantId, day: nat)
    requires a < |actions| && SameOwner(actions[a], row)
    ensures Committed(actions[a := row], m, day) ==
            Committed(actions, m, day) + if OnDay(row, m, day) then Weight(row) - Weight(actions[a]) else 0
  {
    var n := |actions| - 1;
    if a < n {
      RowChanged(actions[..n], a, row, m, day);
      assert actions[a := row][..n] == actions[..n][a := row];
    } else {
      assert actions[a := row][..n] == actions[..n];
    }
  }

  lemma {:induction false} LighterRow(actions: seq<Action>, a: nat, row: Action)
    requires a <= |actions|
    requires if a < |actions| then SameOwner(actions[a], row)
        && (row.kind.OfferDiscount? ==> Weight(row) <= Weight(actions[a]))
             else row.kind.OfferDiscount? ==> Weight(row) == 0
    ensures NoCostlier(actions, Touched(actions, a, row))
  {
    forall m, day ensures Committed(Touched(actions, a, row), m, day) <= Committed(actions, m, day) {
      if a < |actions| {
        RowChanged(actions, a, row, m, day);
      } else {
        OneMoreRow(actions, row, m, day);
      }
    }
  }

  /** A row is counted by policy at no less than it may cost. */
  lemma {:induction false} WeightIsCounted(db: Db, keys: map<KeyId, KeyRecord>, row: Action)
    requires RowRule(db, keys, row) && CapsAreFractions(db) && row.kind.OfferDiscount?
    ensures Weight(row) <= if row.status in COUNTED_DISCOUNTS then row.amount else 0
  {
    if Open(row.status) {
      var percent := row.request.value.input.percent;
      assert percent <= 100.0;
      PartOfWhole(row.amount, percent);
    }
  }

  lemma {:induction false} PartOfWhole(amount: nat, percent: real)
    requires percent <= 100.0
    ensures DiscountPaise(amount, percent) <= amount
  {
    var whole := amount as real;
    assert whole * percent <= whole * 100.0;
    RoundingIsMonotone(whole * percent / 100.0, whole);
    RoundingKeepsWholePaise(amount);
  }

  lemma {:induction false} SameDaySince(createdAt: Micros, now: Micros)
    requires createdAt <= now
    ensures createdAt >= StartOfDay(now) <==> DayOf(createdAt) == DayOf(now)
  {
  }

  /** What policy has counted for today covers all that today's rows may cost. */
  lemma {:induction false} CommittedIsCounted(db: Db, keys: map<KeyId, KeyRecord>, actions: seq<Action>, m: MerchantId)
    requires CapsAreFractions(db)
    requires forall k | 0 <= k < |actions| :: RowRule(db, keys, actions[k])
    ensures Committed(actions, m, DayOf(db.clock)) <= DiscountSince(actions, m, StartOfDay(db.clock))
  {
    if actions != [] {
      var n := |actions| - 1;
      CommittedIsCounted(db, keys, actions[..n], m);
      assert RowRule(db, keys, actions[n]);
      SameDaySince(actions[n].createdAt, db.clock);
      if actions[n].kind.OfferDiscount? {
        WeightIsCounted(db, keys, actions[n]);
      }
    }
  }

  /* ----- Processing ----- */

  lemma {:induction false} PlanIsFree(u: Work, kind: ActionKind, status: ActionStatus, request: Option<Request>, now: Micros)
    requires !kind.OfferDiscount?
    ensures NoCostlier(u.tools.actions, Plan(u, kind, status, request, now).tools.actions)
  {
    if FindAction(u.tools.actions, PlannedKeyId(u, kind)).None? {
      var row := Action(PlannedKeyId(u, kind), u.id, kind, status, u.row.amountAtRisk, now, None, None, request, None);
      LighterRow(u.tools.actions, |u.tools.actions|, row);
    }
  }

  lemma {:induction false} AskIsFree(u: Work, a: nat, ttl: int, now: Micros)
    requires a < |u.tools.actions|
    ensures NoCostlier(u.tools.actions, AskApproval(u, a, ttl, now).tools.actions)
  {
    LighterRow(u.tools.actions, a, u.tools.actions[a].(fingerprint := Some(FingerprintOf(u.row))));
  }

  lemma {:induction false} RecordedIsFree(u: Work, kind: ActionKind, d: Decision, ttl: int, now: Micros)
    requires !kind.OfferDiscount?
    ensures NoCostlier(u.tools.actions, Recorded(u, kind, d, ttl, now).tools.actions)
  {
    var status := match d case Deny(_) => Blocked case Ask => ApprovalRequired case Go => Pending;
    var request := if d.Ask? then Some(PlannedRequest(kind, now)) else None;
    PlanIsFree(u, kind, status, request, now);
    if d.Ask? {
      AskIsFree(Plan(u, kind, status, request, now), PlannedAt(u, kind), ttl, now);
    }
  }

  lemma {:induction false} ProcessIsFree(u: Work, settings: PolicySettings, env: Env, now: Micros)
    ensures NoCostlier(u.tools.actions, ProcessLocked(u, settings, env, now).tools.actions)
  {
    WalkKeeps(u, now);
    var v := Walked(u, now);
    if v.row.status == PolicyCheck {
      var d := ProcessDecision(v, settings, env, now);
      DecidedTools(v, d, settings.approvalTtl, now);
      RecordedIsFree(v, ChosenAction(v.row, v.payments), d, settings.approvalTtl, now);
      assert !SettledForProcessing(u.row.status) ==>
               ProcessLocked(u, settings, env, now) == ProcessDecided(v, d, settings.approvalTtl, now);
    }
  }

  /* ----- Execution ----- */

  /** Re-entering an open row costs what the row already stood for. */
  lemma {:induction false} GrantedRunIsFree(db: Db, u: Work, r: Request, id: KeyId, grant: Option<Grant>, v: Verdict,
          ttl: int, ran: Ran)
    requires TablesSound(db, u.tools) && OnCase(db, u) && Aims(u, r, id, grant) && grant.Some?
    requires r == RecordedRequest(u.tools.actions[grant.value.action])
    requires !ran.Lost? && RunShape(u, r, id, grant, v, ttl, db.clock, ran)
    ensures NoCostlier(u.tools.actions, ran.work.tools.actions)
  {
    if ran.Finished? {
      var a := grant.value.action;
      assert RowRule(db, u.tools.keys, u.tools.actions[a]);
      var row := ran.work.tools.actions[a];
      LighterRow(u.tools.actions, a, row);
    }
  }

  /** Policy has found room for the rounded discount of a request. */
  predicate Fits(db: Db, u: Work, r: Request)
    requires u.row.merchant in db.merchants
  {
    r.tool.OfferDiscount? && r.input.Discount? ==>
      Committed(u.tools.actions, u.row.merchant, DayOf(db.clock)) + DiscountPaise(u.row.amountAtRisk, r.input.percent)
      <= RoundHalfUp(db.merchants[u.row.merchant].dailyBudget)
  }

  lemma {:induction false} AllowedFits(db: Db, u: Work, r: Request, env: Env)
    requires TablesSound(db, u.tools) && CapsAreFractions(db) && ValidInput(r) && u.row.merchant in db.merchants
    requires Judged(u, r, db.merchants[u.row.merchant], env, db.clock).allowed
    ensures Fits(db, u, r)
  {
    if r.tool.OfferDiscount? {
      AllowedIsUnderBudget(u, r, db.merchants[u.row.merchant], env, db.clock);
      UnderBudgetFits(db, u, r);
    }
  }

  /** What remains of the budget after what policy has counted. */
  predicate UnderBudget(u: Work, percent: real, settings: PolicySettings, now: Micros) {
    DiscountSince(u.tools.actions, u.row.merchant, StartOfDay(now)) as real
    + u.row.amountAtRisk as real * percent / 100.0 <= settings.dailyBudget
  }

  lemma {:induction false} AllowedIsUnderBudget(u: Work, r: Request, settings: PolicySettings, env: Env, now: Micros)
    requires ValidInput(r) && r.tool.OfferDiscount? && Judged(u, r, settings, env, now).allowed
    ensures UnderBudget(u, r.input.percent, settings, now)
  {
    var c := BuildContext(u.row, u.id, u.tools, settings, env, now);
    AllowedIff(c, ProposalOf(r));
    assert DiscountWeighed(c, r.input.percent, None) == u.row.amountAtRisk as real * r.input.percent / 100.0;
  }

  lemma {:induction false} UnderBudgetFits(db: Db, u: Work, r: Request)
    requires TablesSound(db, u.tools) && CapsAreFractions(db) && u.row.merchant in db.merchants
    requires r.tool.OfferDiscount? && r.input.Discount?
    requires UnderBudget(u, r.input.percent, db.merchants[u.row.merchant], db.clock)
    ensures Fits(db, u, r)
  {
    var counted := DiscountSince(u.tools.actions, u.row.merchant, StartOfDay(db.clock));
    var committed := Committed(u.tools.actions, u.row.merchant, DayOf(db.clock));
    CommittedIsCounted(db, u.tools.keys, u.tools.actions, u.row.merchant);
    RoomForDiscount(committed, counted, u.row.amountAtRisk, r.input.percent, db.merchants[u.row.merchant].dailyBudget);
  }

  lemma {:induction false} RoomForDiscount(committed: nat, counted: nat, amount: nat, percent: real, budget: real)
    requires committed <= counted && counted as real + amount as real * percent / 100.0 <= budget
    ensures committed + DiscountPaise(amount, percent) <= RoundHalfUp(budget)
  {
    var x := amount as real * percent / 100.0;
    RoundingStaysWithin(counted, x, budget);
  }

  /** A first run costs no more than policy has found room for. */
  lemma {:induction false} FirstRunFits(db: Db, u: Work, r: Request, id: KeyId, v: Verdict, ttl: int, ran: Ran)
    requires TablesSound(db, u.tools) && OnCase(db, u) && Aims(u, r, id, None) && FindAction(u.tools.actions, id).None?
    requires BudgetKept(db, u.tools.actions) && (v.allowed ==> Fits(db, u, r))
    requires !ran.Lost? && RunShape(u, r, id, None, v, ttl, db.clock, ran)
    ensures BudgetKept(db, ran.work.tools.actions)
  {
    if ran.Finished? {
      var n := |u.tools.actions|;
      var row := ran.work.tools.actions[n];
      assert ran.work.tools.actions == u.tools.actions + [row];
      NewRowFits(db, u, r, row, v);
    }
  }

  lemma {:induction false} NewRowFits(db: Db, u: Work, r: Request, row: Action, v: Verdict)
    requires OnCase(db, u) && BudgetKept(db, u.tools.actions) && (v.allowed ==> Fits(db, u, r))
    requires row.keyId.merchant == u.row.merchant && row.createdAt == db.clock && row.kind == r.tool
    requires Weight(row) > 0 && r.tool.OfferDiscount? ==>
               v.allowed && r.input.Discount? && Weight(row) == DiscountPaise(u.row.amountAtRisk, r.input.percent)
    ensures BudgetKept(db, u.tools.actions + [row])
  {
    forall m, day | m in db.merchants ensures Committed(u.tools.actions + [row], m, day) <= Allowance(db.merchants[m]) {
      OneMoreRow(u.tools.actions, row, m, day);
    }
  }

  lemma {:induction false} ConclusionKeepsActions(begun: Work, id: KeyId, r: Request, ran: Ran)
    requires id in begun.tools.keys && !ran.Lost?
    ensures Conclude(begun, id, r, ran).work.tools.actions == ran.work.tools.actions
  {
  }

  lemma {:induction false} CheaperKeepsBudget(db: Db, actions: seq<Action>, actions': seq<Action>)
    requires BudgetKept(db, actions) && NoCostlier(actions, actions')
    ensures BudgetKept(db, actions')
  {
    forall m, day | m in db.merchants ensures Committed(actions', m, day) <= Allowance(db.merchants[m]) {
      assert Committed(actions', m, day) <= Committed(actions, m, day);
    }
  }

  lemma {:induction false} RunKeepsBudget(db: Db, u: Work, r: Request, id: KeyId, grant: Option<Grant>, v: Verdict,
          ttl: int, ran: Ran)
    requires TablesSound(db, u.tools) && OnCase(db, u) && Aims(u, r, id, grant)
    requires Admission(u, r, id, grant.Some?).None?
    requires BudgetKept(db, u.tools.actions) && (v.allowed ==> Fits(db, u, r))
    requires grant.Some? ==> r == RecordedRequest(u.tools.actions[grant.value.action])
    requires !ran.Lost? && RunShape(Opened(u, id, r), r, id, grant, v, ttl, db.clock, ran)
    ensures BudgetKept(db, ran.work.tools.actions)
  {
    var begun := Opened(u, id, r);
    OpenedKeepsTables(db, u, id, r);
    if grant.None? {
      NewKeyHasNoRow(db, u, r, id);
      FirstRunFits(db, begun, r, id, v, ttl, ran);
    } else {
      GrantedRunIsFree(db, begun, r, id, grant, v, ttl, ran);
      CheaperKeepsBudget(db, u.tools.actions, ran.work.tools.actions);
    }
  }

  lemma {:induction false} ExecuteKeepsBudget(db: Db, u: Work, r: Request, key: Key, grant: Option<Grant>, env: Env)
    requires TablesSound(db, u.tools) && OnCase(db, u) && Aims(u, r, KeyId(u.row.merchant, key), grant)
    requires CapsAreFractions(db) && BudgetKept(db, u.tools.actions)
    requires grant.Some? ==> r == RecordedRequest(u.tools.actions[grant.value.action])
    ensures var done := Execute(db.customers, u, r, key, grant, db.merchants[u.row.merchant], env, db.clock);
            done.Crashed? || BudgetKept(db, done.work.tools.actions)
  {
    var id, settings, now := KeyId(u.row.merchant, key), db.merchants[u.row.merchant], db.clock;
    if Admission(u, r, id, grant.Some?).None? {
      var begun := Opened(u, id, r);
      var v := Judged(begun, r, settings, env, now);
      OpenedJudgement(u, id, r, settings, env, now);
      if v.allowed {
        AllowedFits(db, u, r, env);
      }
      var ran := RunJudged(db.customers, begun, r, id, grant, v, settings.approvalTtl, env, now);
      RunJudgedShape(db.customers, begun, r, id, grant, v, settings.approvalTtl, env, now);
      if !ran.Lost? {
        RunKeepsBudget(db, u, r, id, grant, v, settings.approvalTtl, ran);
        ConclusionKeepsActions(begun, id, r, ran);
      }
      assert Execute(db.customers, u, r, key, grant, settings, env, now) == Conclude(begun, id, r, ran);
    }
  }

  /* ----- Every step ----- */

  /** What an approval records before its run: the row stays open, for the same amount. */
  lemma {:induction false} AttemptIsFree(db: Db, op: Op)
    requires TablesSound(db, db.tools) && Locks(db, op) && AttemptOf(db, op).Attempt?
    ensures var at := AttemptOf(db, op);
            && TablesSound(db, at.start.tools) && OnCase(db, at.start)
            && Aims(at.start, at.request, KeyId(at.start.row.merchant, at.key), at.grant)
            && (at.grant.Some? ==> at.request == RecordedRequest(at.start.tools.actions[at.grant.value.action]))
            && NoCostlier(db.tools.actions, at.start.tools.actions)
  {
    if op.ApproveAction? {
      var u := Begin(db, op.i);
      var n := FindApproval(u, op.action).value;
      var v := ExpireIfNeeded(u, n, db.clock);
      DecisionOnApprovalKeepsTables(db, u, n, Expired);
      ApprovingAims(db, v, op.action, n);
      LighterRow(db.tools.actions, op.action, db.tools.actions[op.action].(status := Approved));
    }
  }

  lemma {:induction false} QuietIsFree(db: Db, op: Op, env: Env, w: Work)
    requires Locks(db, op) && QuietWork(db, op, env, w)
    ensures NoCostlier(db.tools.actions, w.tools.actions)
  {
    var u := Begin(db, CaseOf(op).value);
    if op.RejectAction? {
      RejectIsFree(u, op.action, db.clock);
    } else {
      ProcessIsFree(u, db.merchants[u.row.merchant], env, db.clock);
    }
  }

  lemma {:induction false} RejectIsFree(u: Work, a: nat, now: Micros)
    ensures NoCostlier(u.tools.actions, Reject(u, a, now).tools.actions)
  {
    if FindApproval(u, a).Some? {
      LighterRow(u.tools.actions, a, u.tools.actions[a].(status := ActionCancelled));
    }
  }

  lemma {:induction false} WorkKeepsBudget(db: Db, op: Op, env: Env)
    requires TablesSound(db, db.tools) && CapsAreFractions(db) && BudgetKept(db, db.tools.actions) && Locks(db, op)
    ensures var done := Worked(db, op, env);
            done.Crashed? || BudgetKept(db, done.work.tools.actions)
  {
    var at, done := AttemptOf(db, op), Worked(db, op, env);
    if at.NoAttempt? {
      NoAttemptIsQuiet(db, op, env);
      QuietIsFree(db, op, env, done.work);
      CheaperKeepsBudget(db, db.tools.actions, done.work.tools.actions);
    } else {
      AttemptIsFree(db, op);
      AttemptIsExecution(db, op, env);
      CheaperKeepsBudget(db, db.tools.actions, at.start.tools.actions);
      ExecuteKeepsBudget(db, at.start, at.request, at.key, at.grant, env);
    }
  }

  lemma {:induction false} BudgetInRuns(genesis: Db, steps: seq<Step>)
    requires genesis.tools == NO_TOOLS && CapsAreFractions(genesis)
    ensures var db := Run(genesis, steps);
            db.merchants == genesis.merchants && BudgetKept(db, db.tools.actions)
  {
    if steps != [] {
      var front, s := steps[..|steps| - 1], steps[|steps| - 1];
      BudgetInRuns(genesis, front);
      var db := Run(genesis, front);
      NextShape(db, s);
      if Commits(db, s) {
        RunKeepsTablesSound(genesis, front);
        LaterKeepsTables(db, Ticked(db, s), db.tools);
        WorkKeepsBudget(Ticked(db, s), s.op, s.env);
      }
    }
  }

  /** Daily discount budget: the discounts granted by rows created on any day sum to at most
      the budget, rounded to whole paise as the discounts are. */
  lemma {:induction false} DiscountsStayWithinBudget(genesis: Db, steps: seq<Step>, m: MerchantId, day: nat)
    requires genesis.tools == NO_TOOLS && CapsAreFractions(genesis) && m in genesis.merchants
    ensures Granted(Run(genesis, steps).tools.actions, m, day) <= Allowance(genesis.merchants[m])
  {
    BudgetInRuns(genesis, steps);
    GrantedIsCommitted(Run(genesis, steps).tools.actions, m, day);
  }

  /** With a budget of whole paise, that is the budget itself. */
  lemma {:induction false} WholeBudgetIsKept(genesis: Db, steps: seq<Step>, m: MerchantId, day: nat, budget: nat)
    requires genesis.tools == NO_TOOLS && CapsAreFractions(genesis) && m in genesis.merchants
    requires genesis.merchants[m].dailyBudget == budget as real
    ensures Granted(Run(genesis, steps).tools.actions, m, day) <= budget
  {
    DiscountsStayWithinBudget(genesis, steps, m, day);
  }

  /* ----- An approved discount and its own row ----- */

  lemma {:induction false} SumHasRow(actions: seq<Action>, a: nat, m: MerchantId, since: Micros)
    requires a < |actions|
    requires var row := actions[a];
             row.keyId.merchant == m && row.kind == OfferDiscount && row.status in COUNTED_DISCOUNTS
                 && row.createdAt >= since
    ensures DiscountSince(actions, m, since) >= actions[a].amount
  {
    if a < |actions| - 1 {
      SumHasRow(actions[..|actions| - 1], a, m, since);
    }
  }

  lemma {:induction false} SumKeepsRow(actions: seq<Action>, a: nat, row: Action, m: MerchantId, since: Micros)
    requires a < |actions| && row == actions[a].(status := row.status)
    requires actions[a].status in COUNTED_DISCOUNTS && row.status in COUNTED_DISCOUNTS
    ensures DiscountSince(actions[a := row], m, since) == DiscountSince(actions, m, since)
  {
    var n := |actions| - 1;
    if a < n {
      SumKeepsRow(actions[..n], a, row, m, since);
      assert actions[a := row][..n] == actions[..n][a := row];
    } else {
      assert actions[a := row][..n] == actions[..n];
    }
  }

  /** A discount that is approved on the day it was asked for is judged with its own row, which
      stands for the whole amount at risk, among the day's spending: the budget rule denies it
      exactly when the budget has no room for the discount besides all of that. */
  lemma {:induction false} ApprovedDiscountCountsItself(u: Work, a: nat, n: nat, settings: PolicySettings, env: Env,
          now: Micros)
    requires a < |u.tools.actions| && n < |u.tools.approvals|
    requires var row := u.tools.actions[a];
             && row.kind.OfferDiscount? && Open(row.status)
             && row.keyId.merchant == u.row.merchant && row.createdAt >= StartOfDay(now)
             && row.request.Some? && row.request.value.tool.OfferDiscount? && row.request.value.input.Discount?
    ensures DiscountSince(u.tools.actions, u.row.merchant, StartOfDay(now)) >= u.tools.actions[a].amount
    ensures var v := Judged(Approving(u, a, n), RecordedRequest(u.tools.actions[a]), settings, env, now);
            && (DiscountBudget in v.rules <==> !UnderBudget(u, u.tools.actions[a].request.value.input.percent, settings, now))
            && (DiscountBudget in v.rules ==> !v.allowed)
  {
    var r := u.tools.actions[a].request.value;
    SumHasRow(u.tools.actions, a, u.row.merchant, StartOfDay(now));
    ApprovingSpendsNothing(u, a, n, r.input.percent, settings, now);
    BudgetRuleIff(Approving(u, a, n), r, settings, env, now);
  }

  lemma {:induction false} ApprovingSpendsNothing(u: Work, a: nat, n: nat, percent: real, settings: PolicySettings, now: Micros)
    requires a < |u.tools.actions| && n < |u.tools.approvals| && Open(u.tools.actions[a].status)
    ensures UnderBudget(Approving(u, a, n), percent, settings, now) <==> UnderBudget(u, percent, settings, now)
  {
    SumKeepsRow(u.tools.actions, a, u.tools.actions[a].(status := Approved), u.row.merchant, StartOfDay(now));
  }

  lemma {:induction false} BudgetRuleIff(w: Work, r: Request, settings: PolicySettings, env: Env, now: Micros)
    requires r.tool.OfferDiscount? && r.input.Discount?
    ensures DiscountBudget in Judged(w, r, settings, env, now).rules <==> !UnderBudget(w, r.input.percent, settings, now)
    ensures DiscountBudget in Judged(w, r, settings, env, now).rules ==> !Judged(w, r, settings, env, now).allowed
  {
    var c := BuildContext(w.row, w.id, w.tools, settings, env, now);
    RulesIff(c, ProposalOf(r), DiscountBudget);
    AllowedIff(c, ProposalOf(r));
    assert OverBudget(c, r.input.percent, None) <==> !UnderBudget(w, r.input.percent, settings, now);
  }

  /** Room for an amount and, besides, for a discount on it. */
  predicate RoomForBoth(amount: nat, percent: real, budget: real) {
    amount as real + amount as real * percent / 100.0 <= budget
  }

  /** An approved discount row whose request the budget can take besides the row itself. */
  predicate HasRoom(row: Action, c: Case, budget: real) {
    row.amount == c.amountAtRisk && row.request.Some? && row.request.value.input.Discount?
    && RoomForBoth(row.amount, row.request.value.input.percent, budget)
  }

  /** The step is about an approval of a discount that was asked for on the same day. */
  predicate ApprovesTodaysDiscount(db: Db, op: Op) {
    && op.ApproveAction? && op.action < |db.tools.actions|
    && db.tools.actions[op.action].kind.OfferDiscount?
    && db.tools.actions[op.action].createdAt >= StartOfDay(db.clock)
  }

  ghost predicate ApprovedHasRoom(db: Db, op: Op) {
    && Locks(db, op) && op.ApproveAction? && op.action < |db.tools.actions|
    && HasRoom(db.tools.actions[op.action], db.cases[op.i], db.merchants[db.cases[op.i].merchant].dailyBudget)
  }

  /** In every run, a discount that is approved and runs on the day of its request finds room
      in the budget for its whole amount at risk and the discount together. */
  lemma {:induction false} ApprovedDiscountNeedsRoom(genesis: Db, steps: seq<Step>, s: Step, id: KeyId)
    requires genesis.tools == NO_TOOLS
    requires RunsHandler(Run(genesis, steps), s, id)
    requires ApprovesTodaysDiscount(Ticked(Run(genesis, steps), s), s.op)
    ensures ApprovedHasRoom(Ticked(Run(genesis, steps), s), s.op)
  {
    var db := Run(genesis, steps);
    RunsPassTheGate(db, s, id);
    RunKeepsTablesSound(genesis, steps);
    LaterKeepsTables(db, Ticked(db, s), db.tools);
    GateNeedsBudget(Ticked(db, s), s.op, s.env);
  }

  lemma {:induction false} GateNeedsBudget(db: Db, op: Op, env: Env)
    requires TablesSound(db, db.tools) && Locks(db, op) && ApprovesTodaysDiscount(db, op) && AttemptOf(db, op).Attempt?
    requires var at := AttemptOf(db, op);
             Judged(at.start, at.request, db.merchants[at.start.row.merchant], env, db.clock).allowed
    ensures ApprovedHasRoom(db, op)
  {
    var at := AttemptOf(db, op);
    DiscountToApprove(db, op);
    RoomWhenAllowed(at.start, op.action, at.request, db.merchants[at.start.row.merchant], env, db.clock);
  }

  lemma {:induction false} RoomWhenAllowed(w: Work, a: nat, r: Request, settings: PolicySettings, env: Env, now: Micros)
    requires a < |w.tools.actions| && r.tool.OfferDiscount? && r.input.Discount?
    requires var row := w.tools.actions[a];
             && row.keyId.merchant == w.row.merchant && row.kind == OfferDiscount && row.status == Approved
             && row.createdAt >= StartOfDay(now) && row.amount == w.row.amountAtRisk
    requires Judged(w, r, settings, env, now).allowed
    ensures RoomForBoth(w.tools.actions[a].amount, r.input.percent, settings.dailyBudget)
  {
    BudgetRuleIff(w, r, settings, env, now);
    RoomForOwnRow(w, a, r.input.percent, settings, now);
  }

  /** The open discount row of an approval, and what the approved execution finds of it. */
  lemma {:induction false} DiscountToApprove(db: Db, op: Op)
    requires TablesSound(db, db.tools) && Locks(db, op) && ApprovesTodaysDiscount(db, op) && AttemptOf(db, op).Attempt?
    ensures var at, row := AttemptOf(db, op), db.tools.actions[op.action];
            && row.amount == db.cases[op.i].amountAtRisk == at.start.row.amountAtRisk
            && row.request == Some(at.request) && at.request.tool.OfferDiscount? && at.request.input.Discount?
            && op.action < |at.start.tools.actions| && at.start.tools.actions[op.action] == row.(status := Approved)
            && row.keyId.merchant == at.start.row.merchant == db.cases[op.i].merchant
  {
    AttemptedRow(db, op);
    assert RowRule(db, db.tools.keys, db.tools.actions[op.action]);
  }

  lemma {:induction false} RoomForOwnRow(w: Work, a: nat, percent: real, settings: PolicySettings, now: Micros)
    requires UnderBudget(w, percent, settings, now) && a < |w.tools.actions|
    requires var row := w.tools.actions[a];
             && row.keyId.merchant == w.row.merchant && row.kind == OfferDiscount && row.status in COUNTED_DISCOUNTS
             && row.createdAt >= StartOfDay(now) && row.amount == w.row.amountAtRisk
    ensures RoomForBoth(w.tools.actions[a].amount, percent, settings.dailyBudget)
  {
    SumHasRow(w.tools.actions, a, w.row.merchant, StartOfDay(now));
    Besides(DiscountSince(w.tools.actions, w.row.merchant, StartOfDay(now)), w.tools.actions[a].amount,
            w.row.amountAtRisk as real * percent / 100.0, settings.dailyBudget);
  }

  lemma Besides(spent: nat, amount: nat, discount: real, budget: real)
    requires spent as real + discount <= budget && amount <= spent
    ensures amount as real + discount <= budget
  {
  }
}
