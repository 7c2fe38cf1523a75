/** The recovery engine as a step machine: one transaction per step, and runs of steps. */
module Engine {
  import opened Domain
  import opened StateMachine
  import opened Store
  import opened Processor
  import opened Verification
  import opened Execution
  import opened Events

  datatype Op =
    | Ingest(key: EventKey, merchant: MerchantId, body: EventBody)
    | ProcessEvent(key: EventKey)
    | LoseEvent(key: EventKey, retriesLeft: bool)
    | ProcessCase(i: nat)
    | VerifyCase(i: nat, payment: Option<PaymentId>, event: Option<EventKey>)
    | PreparePolicyCheck(i: nat)
    | ExecuteTool(i: nat, request: Request, name: nat)
    | ApproveAction(i: nat, action: nat)
    | RejectAction(i: nat, action: nat)
    | Advance(i: nat, stages: nat)
    | FailClosed(i: nat)
    | RollBack

  /** A transaction that starts `delay` after the previous one. */
  datatype Step = Step(delay: nat, env: Env, op: Op)

  /** _advance leaves a case alone that has reached the target or waits further on. */
  predicate StaysPut(current: CaseStatus, target: CaseStatus) {
    || (current.PolicyCheck? || current.AwaitingApproval? || current.Executing? || current.ActionCompleted?)
    || (Rank(current) < Rank(PolicyCheck) && Rank(current) >= Rank(target))
  }

  /** The orchestrator's calls of _advance from stage k until it has made n of them, or
      until one of them attempts a forbidden transition and raises. */
  function AdvancedFrom(u: Work, k: nat, n: nat, now: Micros): Work
    decreases STAGE_COUNT - k
  {
    if k >= n || k >= STAGE_COUNT then u
    else if StaysPut(u.row.status, Stage(k)) then AdvancedFrom(u, k + 1, n, now)
    else if Legal(u.row.status, Stage(k)) then AdvancedFrom(u.Move(Stage(k), now), k + 1, n, now)
    else u.Refuse(Stage(k))
  }

  /** run_case, as far as it moves the case; it refuses a terminal case. */
  function Advanced(u: Work, n: nat, now: Micros): Work {
    if Terminal(u.row.status) then u else AdvancedFrom(u, 0, n, now)
  }

  /** RecoveryAgentOrchestrator._fail_closed. */
  function ClosedOff(u: Work, now: Micros): Work {
    if u.row.status == PolicyCheck then u.Move(Escalated, now) else u
  }

  function CaseOf(op: Op): Option<nat> {
    match op
    case ProcessCase(i) => Some(i)
    case VerifyCase(i, _, _) => Some(i)
    case PreparePolicyCheck(i) => Some(i)
    case ExecuteTool(i, _, _) => Some(i)
    case ApproveAction(i, _) => Some(i)
    case RejectAction(i, _) => Some(i)
    case Advance(i, _) => Some(i)
    case FailClosed(i) => Some(i)
    case _ => None
  }

  /** The step concerns a case that exists, of a merchant that exists. */
  predicate Locks(db: Db, op: Op) {
    CaseOf(op).Some? && CaseOf(op).value < |db.cases| && db.cases[CaseOf(op).value].merchant in db.merchants
  }

  /** The work that a step does on its locked case, or a crash. */
  function Worked(db: Db, op: Op, env: Env): Executed
    requires Locks(db, op)
  {
    var u := Begin(db, CaseOf(op).value);
    var settings, now := db.merchants[u.row.merchant], db.clock;
    match op
    case ProcessCase(_) => Quiet(ProcessLocked(u, settings, env, now))
    case VerifyCase(_, payment, event) => Quiet(Verify(db, u, payment, event, settings, env, now))
    case PreparePolicyCheck(_) => Quiet(Walk(u, now))
    case ExecuteTool(_, request, name) => Execute(db.customers, u, request, ClientKey(name), None, settings, env, now)
    case ApproveAction(_, a) => Approve(db.customers, u, a, settings, env, now)
    case RejectAction(_, a) => Quiet(Reject(u, a, now))
    case Advance(_, stages) => Quiet(Advanced(u, stages, now))
    case FailClosed(_) => Quiet(ClosedOff(u, now))
  }

  /** A step whose answer to the caller is not modelled. */
  function Quiet(w: Work): Executed {
    Done(w, Unanswered)
  }

  /** The transaction of a case step: committed, unless it crashes. */
  function CaseStepped(db: Db, op: Op, env: Env): Db
    requires CaseOf(op).Some?
  {
    if !Locks(db, op) then db
    else
      var done := Worked(db, op, env);
      if done.Crashed? then db else Commit(db, CaseOf(op).value, done.work)
  }

  /** One transaction, at the time of the database's clock. */
  function Stepped(db: Db, op: Op, env: Env): Db {
    match op
    case Ingest(key, merchant, body) => Ingested(db, key, merchant, body)
    case ProcessEvent(key) => EventProcessed(db, key, db.clock)
    case LoseEvent(key, retriesLeft) => EventLost(db, key, retriesLeft)
    case RollBack => db
    case _ => CaseStepped(db, op, env)
  }

  function Ticked(db: Db, s: Step): Db {
    db.(clock := db.clock + s.delay)
  }

  function Next(db: Db, s: Step): Db {
    Stepped(Ticked(db, s), s.op, s.env)
  }

  function Run(db: Db, steps: seq<Step>): Db {
    if steps == [] then db else Next(Run(db, steps[..|steps| - 1]), steps[|steps| - 1])
  }
}
