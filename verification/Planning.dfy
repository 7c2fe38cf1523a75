/** What processing a case comes to, told by its columns, the rows of its action table, its
    customer's notifications and the merchant's settings: which action is planned, where the
    case ends, and what the planned row and its approval hold. */
module Planning {
  import opened Domain
  import opened StateMachine
  import opened Store
  import opened Policy
  import opened PolicyContext
  import opened Processor

  /* ----- What policy reads ----- */

  /** A retry that has not failed, and was neither blocked nor cancelled. */
  predicate StandingRetry(a: Action, caseId: nat) {
    && a.caseId == caseId && (a.kind.RetryNow? || a.kind.RetryLater?)
    && !a.status.ActionFailed? && !a.status.Blocked? && !a.status.ActionCancelled?
  }

  function StandingRetries(actions: seq<Action>, caseId: nat): nat {
    |set k | 0 <= k < |actions| && StandingRetry(actions[k], caseId)|
  }

  /** A notification of the last 24 hours to a customer of a merchant. */
  predicate Lately(n: Notice, m: MerchantId, c: CustomerId, now: Micros) {
    n.merchant == m && n.customer == c && now <= n.at + MICROS_PER_DAY
  }

  function LatelyNotified(notices: seq<Notice>, m: MerchantId, c: CustomerId, now: Micros): nat {
    |set k | 0 <= k < |notices| && Lately(notices[k], m, c, now)|
  }

  /** A discount of a merchant, asked for or given on the day of `now` and not dropped since. */
  predicate SpentToday(a: Action, m: MerchantId, now: Micros) {
    && a.keyId.merchant == m && a.kind.OfferDiscount?
    && now / MICROS_PER_DAY <= a.createdAt / MICROS_PER_DAY
    && !a.status.Planned? && !a.status.ActionFailed? && !a.status.Blocked? && !a.status.ActionCancelled?
  }

  function Sum(amounts: seq<nat>): nat {
    if amounts == [] then 0 else amounts[0] + Sum(amounts[1..])
  }

  function SpendingToday(actions: seq<Action>, m: MerchantId, now: Micros): seq<nat> {
    seq(|actions|, k requires 0 <= k < |actions| => if SpentToday(actions[k], m, now) then actions[k].amount else 0)
  }

  /** The last verification found the money to be somebody else's, or of another order. */
  predicate Misidentified(m: Option<Mismatch>) {
    match m
    case Some(MerchantMismatch) => true
    case Some(CustomerMismatch) => true
    case Some(OrderMismatch) => true
    case Some(PaymentMismatch) => true
    case _ => false
  }

  lemma {:induction false} RetriesAreCounted(actions: seq<Action>, caseId: nat)
    ensures RetryCount(actions, caseId) == StandingRetries(actions, caseId)
  {
    if actions != [] {
      var n := |actions| - 1;
      RetriesAreCounted(actions[..n], caseId);
      var before := set k | 0 <= k < n && StandingRetry(actions[..n][k], caseId);
      var all := set k | 0 <= k < |actions| && StandingRetry(actions[k], caseId);
      assert before == set k | 0 <= k < n && StandingRetry(actions[k], caseId);
      assert all == before + if StandingRetry(actions[n], caseId) then {n} else {};
    }
  }

  lemma {:induction false} NoticesAreCounted(notices: seq<Notice>, m: MerchantId, c: CustomerId, now: Micros)
    ensures NoticesSince(notices, m, c, now - MICROS_PER_DAY) == LatelyNotified(notices, m, c, now)
  {
    if notices != [] {
      var n := |notices| - 1;
      NoticesAreCounted(notices[..n], m, c, now);
      var before := set k | 0 <= k < n && Lately(notices[..n][k], m, c, now);
      var all := set k | 0 <= k < |notices| && Lately(notices[k], m, c, now);
      assert before == set k | 0 <= k < n && Lately(notices[k], m, c, now);
      assert all == before + if Lately(notices[n], m, c, now) then {n} else {};
    }
  }

  lemma {:induction false} SumOfOneMore(front: seq<nat>, x: nat)
    ensures Sum(front + [x]) == Sum(front) + x
  {
    if front != [] {
      SumOfOneMore(front[1..], x);
      assert (front + [x])[1..] == front[1..] + [x];
    }
  }

  lemma {:induction false} SpendingIsSummed(actions: seq<Action>, m: MerchantId, now: Micros)
    ensures DiscountSince(actions, m, StartOfDay(now)) == Sum(SpendingToday(actions, m, now))
  {
    if actions != [] {
      var n := |actions| - 1;
      SpendingIsSummed(actions[..n], m, now);
      SinceStartOfDay(actions[n].createdAt, now);
      var x := if SpentToday(actions[n], m, now) then actions[n].amount else 0;
      SumOfOneMore(SpendingToday(actions[..n], m, now), x);
      assert SpendingToday(actions, m, now) == SpendingToday(actions[..n], m, now) + [x];
    }
  }

  lemma SinceStartOfDay(at: Micros, now: Micros)
    ensures at >= StartOfDay(now) <==> now / MICROS_PER_DAY <= at / MICROS_PER_DAY
  {
  }

  /** The counts, the sum and the flags that policy is given. */
  lemma {:induction false} ContextReads(c: Case, caseId: nat, tools: Tools, settings: PolicySettings, env: Env, now: Micros)
    ensures var x := BuildContext(c, caseId, tools, settings, env, now);
            && x.amountAtRisk == c.amountAtRisk && x.settings == settings && x.now == now
            && x.retries == StandingRetries(tools.actions, caseId)
            && x.communications == LatelyNotified(tools.notices, c.merchant, c.customer, now)
            && x.discountSpent == Sum(SpendingToday(tools.actions, c.merchant, now))
            && x.blocked == env.blocked && x.optedOut == env.optedOut && x.discountEligible == env.discountEligible
            && (x.suspicious <==> env.suspicious || Misidentified(c.mismatch))
            && (x.sourceMismatch <==> env.sourceMismatch || Misidentified(c.mismatch))
  {
    RetriesAreCounted(tools.actions, caseId);
    NoticesAreCounted(tools.notices, c.merchant, c.customer, now);
    SpendingIsSummed(tools.actions, c.merchant, now);
  }

  /* ----- The decision ----- */

  /** The failure on record for the case's own payment. */
  function FailureOf(c: Case, payments: map<PaymentId, Payment>): Option<FailureCode> {
    match c.payment
    case Some(p) => if p in payments && p.merchant == c.merchant then payments[p].failure else None
    case None => None
  }

  /** A bank error, a timeout or missing funds may pass; on anything else the customer is asked
      to pay by link. */
  function PlannedFor(failure: Option<FailureCode>): ActionKind {
    match failure
    case Some(TemporaryBankError) => RetryLater
    case Some(NetworkTimeout) => RetryLater
    case Some(InsufficientFunds) => RetryLater
    case _ => SendPaymentLink
  }

  predicate Suspect(c: Case, env: Env) {
    env.suspicious || env.sourceMismatch || Misidentified(c.mismatch)
  }

  /** What forbids the planned action, besides suspicion. */
  predicate PlanForbidden(u: Work, kind: ActionKind, settings: PolicySettings, env: Env, now: Micros) {
    || kind in env.blocked
    || !settings.automatic
    || (kind.RetryLater? && StandingRetries(u.tools.actions, u.id) >= settings.maxRetries)
    || (kind.SendPaymentLink? && env.optedOut)
    || (kind.SendPaymentLink?
        && LatelyNotified(u.tools.notices, u.row.merchant, u.row.customer, now) >= settings.maxCommunications)
  }

  predicate NeedsHuman(c: Case, settings: PolicySettings) {
    c.amountAtRisk as real > settings.mediumThreshold || c.amountAtRisk as real > settings.highThreshold
  }

  lemma {:induction false} PlanIsChosen(u: Work)
    ensures ChosenAction(u.row, u.payments) == PlannedFor(FailureOf(u.row, u.payments))
  {
  }

  /** The decision on the planned action, whatever the case's stage. */
  lemma {:induction false} PlanIsDecided(u: Work, settings: PolicySettings, env: Env, now: Micros)
    ensures var kind := PlannedFor(FailureOf(u.row, u.payments));
            ProcessDecision(u, settings, env, now) ==
            if Suspect(u.row, env) then Deny(true)
            else if PlanForbidden(u, kind, settings, env, now) then Deny(false)
            else if NeedsHuman(u.row, settings) then Ask else Go
  {
    PlanIsChosen(u);
    var kind, c := ChosenAction(u.row, u.payments), BuildContext(u.row, u.id, u.tools, settings, env, now);
    ContextReads(u.row, u.id, u.tools, settings, env, now);
    VerdictOnPlan(c, kind);
    assert ProcessDecision(u, settings, env, now) == Decide(Evaluate(c, Proposal(kind, None, None)));
  }

  lemma {:induction false} VerdictOnPlan(c: Context, kind: ActionKind)
    requires kind.RetryLater? || kind.SendPaymentLink?
    ensures var v := Evaluate(c, Proposal(kind, None, None));
            && (v.allowed <==>
                  && !(kind in c.blocked) && c.settings.automatic && !c.suspicious && !c.sourceMismatch
                  && (kind.RetryLater? ==> c.retries < c.settings.maxRetries)
                  && (kind.SendPaymentLink? ==> !c.optedOut && c.communications < c.settings.maxCommunications))
            && (v.requiresApproval <==> v.allowed && (c.amountAtRisk as real > c.settings.mediumThreshold
                                                      || c.amountAtRisk as real > c.settings.highThreshold))
            && (SuspiciousSource in v.rules <==> c.suspicious || c.sourceMismatch)
  {
    AllowedIff(c, Proposal(kind, None, None));
    RulesIff(c, Proposal(kind, None, None), SuspiciousSource);
  }

  /* ----- Where a case ends ----- */

  /** The fingerprint remembers what a decision would have to be taken again for. */
  function Remembered(c: Case): Option<Fingerprint> {
    Some(Fingerprint(c.amountAtRisk, c.payment, c.customer, c.mismatch, c.amountRecovered))
  }

  /** The row under the key of the planned action: the one there is, or a new one at the end. */
  ghost predicate PlannedRowAt(u: Work, t: Tools, a: nat, kind: ActionKind, status: ActionStatus, request: Option<Request>,
                               asked: bool, now: Micros)
  {
    var id := KeyId(u.row.merchant, PlannedKey(u.id, kind));
    && a < |t.actions| && t.actions[a].keyId == id
    && |t.actions| == (if a < |u.tools.actions| then |u.tools.actions| else |u.tools.actions| + 1)
    && (forall k | 0 <= k < |u.tools.actions| && k != a :: t.actions[k] == u.tools.actions[k])
    && if a < |u.tools.actions|
       then t.actions[a] == if asked then u.tools.actions[a].(fingerprint := Remembered(u.row)) else u.tools.actions[a]
       else
         && (forall k | 0 <= k < |u.tools.actions| :: u.tools.actions[k].keyId != id)
         && t.actions[a] == Action(id, u.id, kind, status, u.row.amountAtRisk, now, None, None, request,
                                   if asked then Remembered(u.row) else None)
  }

  /** The planned row, and a pending approval of it that lasts for the merchant's time to live
      if a human is asked. */
  ghost predicate Plans(u: Work, t: Tools, kind: ActionKind, status: ActionStatus, request: Option<Request>, asked: bool,
                        ttl: int, now: Micros)
  {
    exists a ::
      && PlannedRowAt(u, t, a, kind, status, request, asked, now)
      && t == u.tools.(actions := t.actions,
                       approvals := u.tools.approvals + if asked then [Approval(u.id, a, AwaitingDecision, now + ttl)] else [])
  }

  /** The planned request: a retry is scheduled an hour from now. */
  function InAnHour(kind: ActionKind, now: Micros): Request {
    Request(kind, if kind.RetryLater? then Schedule(now + 3_600_000_000) else NoInput)
  }

  /** Where processing leaves a case that had not got past its policy check. */
  ghost predicate ProcessedTo(u: Work, w: Work, settings: PolicySettings, env: Env, now: Micros) {
    var c, kind := u.row, PlannedFor(FailureOf(u.row, u.payments));
    var stages := if Rank(c.status) <= Rank(PolicyCheck) then Rank(PolicyCheck) - Rank(c.status) else 0;
    && w == u.(row := w.row, log := w.log, tools := w.tools)
    && if Suspect(c, env) then
         && w.row == c.(status := Escalated, version := c.version + stages + 1, closedAt := None)
         && Plans(u, w.tools, kind, Blocked, None, false, settings.approvalTtl, now)
       else if PlanForbidden(u, kind, settings, env, now) then
         && w.row == c.(status := Stopped, version := c.version + stages + 1, closedAt := Some(now))
         && Plans(u, w.tools, kind, Blocked, None, false, settings.approvalTtl, now)
       else if NeedsHuman(c, settings) then
         && w.row == c.(status := AwaitingApproval, version := c.version + stages + 1, closedAt := None)
         && Plans(u, w.tools, kind, ApprovalRequired, Some(InAnHour(kind, now)), true, settings.approvalTtl, now)
       else
         && w.row == c.(status := ActionCompleted, version := c.version + stages + 2, closedAt := None)
         && Plans(u, w.tools, kind, Pending, None, false, settings.approvalTtl, now)
  }

  lemma {:induction false} WalkCounts(u: Work, now: Micros)
    requires Rank(u.row.status) <= Rank(PolicyCheck)
    ensures Walked(u, now).row.version == u.row.version + (Rank(PolicyCheck) - Rank(u.row.status))
    decreases Rank(PolicyCheck) - Rank(u.row.status)
  {
    if Rank(u.row.status) < Rank(PolicyCheck) {
      WalkCounts(u.Move(NextStage(u.row.status), now), now);
    }
  }

  lemma {:induction false} PlanPlans(u: Work, kind: ActionKind, status: ActionStatus, request: Option<Request>, ttl: int,
                       now: Micros)
    ensures Plans(u, Plan(u, kind, status, request, now).tools, kind, status, request, false, ttl, now)
  {
    var t := Plan(u, kind, status, request, now).tools;
    assert t.approvals == u.tools.approvals + [];
    assert PlannedRowAt(u, t, PlannedAt(u, kind), kind, status, request, false, now);
  }

  lemma {:induction false} AskPlans(u: Work, kind: ActionKind, request: Option<Request>, ttl: int, now: Micros)
    ensures var v := Plan(u, kind, ApprovalRequired, request, now);
            Plans(u, AskApproval(v, PlannedAt(u, kind), ttl, now).tools, kind, ApprovalRequired, request, true, ttl, now)
  {
    var a := PlannedAt(u, kind);
    var v := Plan(u, kind, ApprovalRequired, request, now);
    var t := AskApproval(v, a, ttl, now).tools;
    PlanKeepsCase(u, kind, ApprovalRequired, request, now);
    assert PlannedRowAt(u, v.tools, a, kind, ApprovalRequired, request, false, now);
    assert PlannedRowAt(u, t, a, kind, ApprovalRequired, request, true, now);
  }

  lemma {:induction false} RecordedPlans(u: Work, kind: ActionKind, d: Decision, ttl: int, now: Micros)
    ensures var status := match d case Deny(_) => Blocked case Ask => ApprovalRequired case Go => Pending;
            Plans(u, Recorded(u, kind, d, ttl, now).tools, kind, status, if d.Ask? then Some(InAnHour(kind, now)) else None,
                  d.Ask?, ttl, now)
  {
    match d
    case Deny(_) => PlanPlans(u, kind, Blocked, None, ttl, now);
    case Ask => AskPlans(u, kind, Some(InAnHour(kind, now)), ttl, now);
    case Go => PlanPlans(u, kind, Pending, None, ttl, now);
  }

  lemma {:induction false} SteeredTo(u: Work, d: Decision, now: Micros)
    requires u.row.status == PolicyCheck
    ensures var w := Steered(u, d, now);
            && w == u.(row := w.row, log := w.log)
            && w.row == match d
                        case Deny(true) => u.row.(status := Escalated, version := u.row.version + 1, closedAt := None)
                        case Deny(false) => u.row.(status := Stopped, version := u.row.version + 1, closedAt := Some(now))
                        case Ask => u.row.(status := AwaitingApproval, version := u.row.version + 1, closedAt := None)
                        case Go => u.row.(status := ActionCompleted, version := u.row.version + 2, closedAt := None)
  {
  }

  /** Plans made on the way to the policy check are plans for the case as it was. */
  lemma {:induction false} WalkedPlans(u: Work, v: Work, t: Tools, kind: ActionKind, status: ActionStatus,
                       request: Option<Request>, asked: bool, ttl: int, now: Micros)
    requires v.id == u.id && v.tools == u.tools
    requires v.row == u.row.(status := v.row.status, version := v.row.version, closedAt := v.row.closedAt)
    requires Plans(v, t, kind, status, request, asked, ttl, now)
    ensures Plans(u, t, kind, status, request, asked, ttl, now)
  {
    var a :| && PlannedRowAt(v, t, a, kind, status, request, asked, now)
             && t == v.tools.(actions := t.actions,
                              approvals := v.tools.approvals
                                + if asked then [Approval(v.id, a, AwaitingDecision, now + ttl)] else []);
    assert PlannedRowAt(u, t, a, kind, status, request, asked, now);
  }

  /** Where processing leaves a case up to its policy check, and what it plans for it. */
  lemma {:induction false} ProcessingEnds(u: Work, settings: PolicySettings, env: Env, now: Micros)
    requires Rank(u.row.status) <= Rank(PolicyCheck)
    ensures ProcessedTo(u, ProcessLocked(u, settings, env, now), settings, env, now)
  {
    var v := Walked(u, now);
    WalkedStands(u, now);
    LockedIsDecided(u, settings, env, now);
    ProcessingEndsFrom(u, v, ProcessLocked(u, settings, env, now), ProcessDecision(v, settings, env, now), settings, env, now);
  }

  lemma {:induction false} WalkedStands(u: Work, now: Micros)
    requires Rank(u.row.status) <= Rank(PolicyCheck)
    ensures var v := Walked(u, now);
            && v == u.(row := v.row, log := v.log)
            && v.row == u.row.(status := PolicyCheck, version := u.row.version + (Rank(PolicyCheck) - Rank(u.row.status)),
                               closedAt := v.row.closedAt)
  {
    WalkKeeps(u, now);
    WalkCounts(u, now);
  }

  lemma {:induction false} LockedIsDecided(u: Work, settings: PolicySettings, env: Env, now: Micros)
    requires Rank(u.row.status) <= Rank(PolicyCheck)
    ensures var v := Walked(u, now);
            && v.row.status == PolicyCheck
            && var d := ProcessDecision(v, settings, env, now);
               ProcessLocked(u, settings, env, now)
               == Steered(Recorded(v, ChosenAction(v.row, v.payments), d, settings.approvalTtl, now), d, now)
  {
    WalkKeeps(u, now);
  }

  lemma {:induction false} ProcessingEndsFrom(u: Work, v: Work, w: Work, d: Decision, settings: PolicySettings, env: Env,
                       now: Micros)
    requires Rank(u.row.status) <= Rank(PolicyCheck) && v == u.(row := v.row, log := v.log)
    requires v.row == u.row.(status := PolicyCheck, version := u.row.version + (Rank(PolicyCheck) - Rank(u.row.status)),
                             closedAt := v.row.closedAt)
    requires d == ProcessDecision(v, settings, env, now)
    requires w == Steered(Recorded(v, ChosenAction(v.row, v.payments), d, settings.approvalTtl, now), d, now)
    ensures ProcessedTo(u, w, settings, env, now)
  {
    PlanIsChosen(v);
    DecidedEnds(u, v, ChosenAction(v.row, v.payments), d, settings.approvalTtl, now);
    DecisionOnTheWay(u, v, settings, env, now);
    EndsTo(u, w, d, settings, env, now);
  }

  lemma {:induction false} DecisionOnTheWay(u: Work, v: Work, settings: PolicySettings, env: Env, now: Micros)
    requires v == u.(row := v.row, log := v.log)
    requires v.row == u.row.(status := v.row.status, version := v.row.version, closedAt := v.row.closedAt)
    ensures ProcessDecision(v, settings, env, now) == ProcessDecision(u, settings, env, now)
  {
    PlanIsDecided(u, settings, env, now);
    PlanIsDecided(v, settings, env, now);
  }

  lemma {:induction false} EndsTo(u: Work, w: Work, d: Decision, settings: PolicySettings, env: Env, now: Micros)
    requires Rank(u.row.status) <= Rank(PolicyCheck) && d == ProcessDecision(u, settings, env, now)
    requires var stages := Rank(PolicyCheck) - Rank(u.row.status);
             EndsAs(u, w, PlannedFor(FailureOf(u.row, u.payments)), d, u.row.version + stages, settings.approvalTtl, now)
    ensures ProcessedTo(u, w, settings, env, now)
  {
    PlanIsDecided(u, settings, env, now);
  }

  /** What one decision makes of the case, from a version on. */
  ghost predicate EndsAs(u: Work, w: Work, kind: ActionKind, d: Decision, version: nat, ttl: int, now: Micros) {
    var status := match d case Deny(_) => Blocked case Ask => ApprovalRequired case Go => Pending;
    && w == u.(row := w.row, log := w.log, tools := w.tools)
    && Plans(u, w.tools, kind, status, if d.Ask? then Some(InAnHour(kind, now)) else None, d.Ask?, ttl, now)
    && w.row == match d
                case Deny(true) => u.row.(status := Escalated, version := version + 1, closedAt := None)
                case Deny(false) => u.row.(status := Stopped, version := version + 1, closedAt := Some(now))
                case Ask => u.row.(status := AwaitingApproval, version := version + 1, closedAt := None)
                case Go => u.row.(status := ActionCompleted, version := version + 2, closedAt := None)
  }

  /** The planned row and the transitions of one decision, on a case that has walked. */
  lemma {:induction false} DecidedEnds(u: Work, v: Work, kind: ActionKind, d: Decision, ttl: int, now: Micros)
    requires v.row.status == PolicyCheck && v == u.(row := v.row, log := v.log)
    requires v.row == u.row.(status := v.row.status, version := v.row.version, closedAt := v.row.closedAt)
    ensures EndsAs(u, Steered(Recorded(v, kind, d, ttl, now), d, now), kind, d, v.row.version, ttl, now)
  {
    var status := match d case Deny(_) => Blocked case Ask => ApprovalRequired case Go => Pending;
    var request := if d.Ask? then Some(InAnHour(kind, now)) else None;
    RecordedKeepsCase(v, kind, d, ttl, now);
    RecordedPlans(v, kind, d, ttl, now);
    WalkedPlans(u, v, Recorded(v, kind, d, ttl, now).tools, kind, status, request, d.Ask?, ttl, now);
    SteeredTo(Recorded(v, kind, d, ttl, now), d, now);
  }
}
