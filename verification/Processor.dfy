/** Driving a detected case to its policy check and recording the planned action. */
module Processor {
  import opened Domain
  import opened StateMachine
  import opened Store
  import opened Policy
  import opened PolicyContext

  const RETRYABLE_FAILURES := {TemporaryBankError, NetworkTimeout, InsufficientFunds}

  /** The statuses in which process_locked_case leaves the case alone. */
  predicate SettledForProcessing(s: CaseStatus) {
    match s
    case Recovered | Stopped | ActionCompleted | Verifying | NotRecovered => true
    case RetryScheduled | ExecutionFailed | Escalated | AwaitingApproval => true
    case _ => false
  }

  /** The statuses that the walk towards the policy check can tell apart. */
  predicate OnTheWay(s: CaseStatus) {
    Rank(s) <= Rank(ActionCompleted) && s != ExecutionFailed
  }

  function NextStage(s: CaseStatus): (t: CaseStatus)
    requires Rank(s) < Rank(PolicyCheck)
    ensures Raises(s, t) && Rank(t) == Rank(s) + 1
  {
    match s
    case Detected => Triaged
    case Triaged => Investigating
    case Investigating => Diagnosed
    case Diagnosed => Scoring
    case Scoring => StrategySelected
    case StrategySelected => PolicyCheck
  }

  /** One stage after the other until the policy check; later statuses stay put. */
  function Walked(u: Work, now: Micros): (w: Work)
    decreases Rank(PolicyCheck) - Rank(u.row.status)
  {
    if Rank(u.row.status) < Rank(PolicyCheck) then Walked(u.Move(NextStage(u.row.status), now), now) else u
  }

  /** walk_to_policy_check. Off the way, its first transition is illegal and raises. */
  function Walk(u: Work, now: Micros): Work {
    if OnTheWay(u.row.status) then Walked(u, now) else u.Refuse(Triaged)
  }

  function ChosenAction(c: Case, payments: map<PaymentId, Payment>): ActionKind {
    if c.payment.Some? && c.payment.value in payments && c.payment.value.merchant == c.merchant
       && payments[c.payment.value].failure.Some?
       && payments[c.payment.value].failure.value in RETRYABLE_FAILURES
    then RetryLater
    else SendPaymentLink
  }

  /** The row with a given idempotency key; the database keeps it unique. */
  function FindAction(actions: seq<Action>, id: KeyId): (found: Option<nat>)
    ensures found.Some? ==> found.value < |actions| && actions[found.value].keyId == id
    ensures found.None? <==> forall a <- actions :: a.keyId != id
  {
    if actions == [] then None
    else
      var n := |actions| - 1;
      if actions[n].keyId == id then Some(n)
      else
        var found := FindAction(actions[..n], id);
        assert actions == actions[..n] + [actions[n]];
        found
  }

  function PlannedKeyId(u: Work, kind: ActionKind): KeyId {
    KeyId(u.row.merchant, PlannedKey(u.id, kind))
  }

  function Plan(u: Work, kind: ActionKind, status: ActionStatus, request: Option<Request>, now: Micros): Work {
    if FindAction(u.tools.actions, PlannedKeyId(u, kind)).Some? then u
    else
      var a := Action(PlannedKeyId(u, kind), u.id, kind, status, u.row.amountAtRisk, now, None, None, request, None);
      u.(tools := u.tools.(actions := u.tools.actions + [a]))
  }

  /** A new pending approval of action `a`, which keeps the case's fingerprint. */
  function AskApproval(u: Work, a: nat, ttl: int, now: Micros): Work
    requires a < |u.tools.actions|
  {
    var row := u.tools.actions[a].(fingerprint := Some(FingerprintOf(u.row)));
    u.(tools := u.tools.(
         actions := u.tools.actions[a := row],
         approvals := u.tools.approvals + [Approval(u.id, a, AwaitingDecision, now + ttl)]))
  }

  datatype Decision = Deny(escalate: bool) | Ask | Go

  function Decide(v: Verdict): Decision {
    if !v.allowed then Deny(SuspiciousSource in v.rules)
    else if v.requiresApproval then Ask
    else Go
  }

  /** The transitions that a decision takes. No provider is called. */
  function Steered(u: Work, d: Decision, now: Micros): Work
    requires u.row.status == PolicyCheck
  {
    match d
    case Deny(escalate) => u.Move(if escalate then Escalated else Stopped, now)
    case Ask => u.Move(AwaitingApproval, now)
    case Go => u.Move(Executing, now).Move(ActionCompleted, now)
  }

  function PlannedRequest(kind: ActionKind, now: Micros): Request {
    Request(kind, if kind == RetryLater then Schedule(now + MICROS_PER_HOUR) else NoInput)
  }

  /** The tool tables after a decision. */
  function Recorded(u: Work, kind: ActionKind, d: Decision, ttl: int, now: Micros): Work {
    match d
    case Deny(_) => Plan(u, kind, Blocked, None, now)
    case Ask =>
      var a := PlannedAt(u, kind);
      var v := Plan(u, kind, ApprovalRequired, Some(PlannedRequest(kind, now)), now);
      AskApproval(v, a, ttl, now)
    case Go => Plan(u, kind, Pending, None, now)
  }

  function PlannedAt(u: Work, kind: ActionKind): (a: nat)
    ensures forall status, request, now :: a < |Plan(u, kind, status, request, now).tools.actions|
  {
    var found := FindAction(u.tools.actions, PlannedKeyId(u, kind));
    if found.Some? then found.value else |u.tools.actions|
  }

  function ProcessDecision(u: Work, settings: PolicySettings, env: Env, now: Micros): Decision {
    var kind := ChosenAction(u.row, u.payments);
    Decide(Evaluate(BuildContext(u.row, u.id, u.tools, settings, env, now), Proposal(kind, None, None)))
  }

  /** The planned action and the transitions of one decision. */
  function ProcessDecided(u: Work, d: Decision, ttl: int, now: Micros): Work
    requires u.row.status == PolicyCheck
  {
    Steered(Recorded(u, ChosenAction(u.row, u.payments), d, ttl, now), d, now)
  }

  /** process_locked_case. */
  function ProcessLocked(u: Work, settings: PolicySettings, env: Env, now: Micros): Work {
    if SettledForProcessing(u.row.status) then u
    else
      var w := Walked(u, now);
      if w.row.status != PolicyCheck then w
      else ProcessDecided(w, ProcessDecision(w, settings, env, now), settings.approvalTtl, now)
  }

  lemma {:induction false} WalkKeeps(u: Work, now: Micros)
    ensures var w := Walked(u, now);
            && w.id == u.id && w.tools == u.tools && w.payments == u.payments && w.creditedFrom == u.creditedFrom
            && w.row == u.row.(status := w.row.status, version := w.row.version, closedAt := w.row.closedAt)
            && w.row.status == (if Rank(u.row.status) < Rank(PolicyCheck) then PolicyCheck else u.row.status)
    decreases Rank(PolicyCheck) - Rank(u.row.status)
  {
    if Rank(u.row.status) < Rank(PolicyCheck) {
      WalkKeeps(u.Move(NextStage(u.row.status), now), now);
    }
  }

  lemma {:induction false} PlanKeepsCase(u: Work, kind: ActionKind, status: ActionStatus, request: Option<Request>,
          now: Micros)
    ensures Plan(u, kind, status, request, now) == u.(tools := Plan(u, kind, status, request, now).tools)
  {
  }

  lemma {:induction false} RecordedKeepsCase(u: Work, kind: ActionKind, d: Decision, ttl: int, now: Micros)
    ensures Recorded(u, kind, d, ttl, now) == u.(tools := Recorded(u, kind, d, ttl, now).tools)
  {
    var status := match d case Deny(_) => Blocked case Ask => ApprovalRequired case Go => Pending;
    var request := if d.Ask? then Some(PlannedRequest(kind, now)) else None;
    PlanKeepsCase(u, kind, status, request, now);
  }

  function StatusAfter(d: Decision): CaseStatus {
    match d
    case Deny(escalate) => if escalate then Escalated else Stopped
    case Ask => AwaitingApproval
    case Go => ActionCompleted
  }

  lemma {:induction false} ProcessDecidedKeeps(u: Work, d: Decision, ttl: int, now: Micros)
    requires u.row.status == PolicyCheck
    ensures var w := ProcessDecided(u, d, ttl, now);
            && w.id == u.id && w.payments == u.payments && w.creditedFrom == u.creditedFrom
            && w.row == u.row.(status := StatusAfter(d), version := w.row.version, closedAt := w.row.closedAt)
            && (w.row.closedAt.Some? <==> Terminal(w.row.status))
  {
    RecordedKeepsCase(u, ChosenAction(u.row, u.payments), d, ttl, now);
    SteeredShape(Recorded(u, ChosenAction(u.row, u.payments), d, ttl, now), d, now);
  }

  lemma {:induction false} SteeredShape(u: Work, d: Decision, now: Micros)
    requires u.row.status == PolicyCheck
    ensures var w := Steered(u, d, now);
            && w == u.(row := w.row, log := w.log)
            && w.row == u.row.(status := StatusAfter(d), version := w.row.version, closedAt := w.row.closedAt)
            && (w.row.closedAt.Some? <==> Terminal(w.row.status))
  {
  }
}
