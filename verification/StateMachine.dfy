/** The recovery case state machine: the legal edges and the rank that every
    transition taken by a service raises. */
module StateMachine {
  import opened Domain

  predicate Terminal(s: CaseStatus) {
    s == Recovered || s == Stopped
  }

  /** The closed table of legal transitions. */
  predicate Legal(from: CaseStatus, to: CaseStatus) {
    match from
    case Detected => to == Triaged
    case Triaged => to == Investigating || to == Scoring
    case Investigating => to == Diagnosed
    case Diagnosed => to == Scoring
    case Scoring => to == StrategySelected
    case StrategySelected => to == PolicyCheck
    case PolicyCheck =>
      to == Executing || to == Stopped || to == Escalated || to == AwaitingApproval || to == RetryScheduled
    case AwaitingApproval => to == Executing || to == Stopped || to == Escalated || to == PolicyCheck
    case Executing => to == ActionCompleted || to == ExecutionFailed
    case ActionCompleted => to == Verifying
    case Verifying => to == Recovered || to == NotRecovered || to == RetryScheduled
    case NotRecovered => to == RetryScheduled || to == Escalated || to == Stopped
    case ExecutionFailed => to == RetryScheduled || to == Escalated || to == Stopped
    case RetryScheduled => to == Scoring
    case Escalated => to == Stopped
    case Recovered => false
    case Stopped => false
  }

  /** A service never moves a case to an equal or lower rank, although the legal
      relation itself is cyclic. */
  function Rank(s: CaseStatus): nat {
    match s
    case Detected => 0
    case Triaged => 1
    case Investigating => 2
    case Diagnosed => 3
    case Scoring => 4
    case StrategySelected => 5
    case PolicyCheck => 6
    case AwaitingApproval => 7
    case Executing => 8
    case ActionCompleted => 9
    case ExecutionFailed => 9
    case Verifying => 10
    case Recovered => 11
    case NotRecovered => 11
    case RetryScheduled => 12
    case Escalated => 12
    case Stopped => 12
  }

  const TOP_RANK: nat := 12

  const STAGE_COUNT: nat := 6

  /** The stages on the way to the policy check, in order. */
  function Stage(k: nat): (s: CaseStatus)
    requires k < STAGE_COUNT
    ensures Rank(s) == k + 1
  {
    match k
    case 0 => Triaged
    case 1 => Investigating
    case 2 => Diagnosed
    case 3 => Scoring
    case 4 => StrategySelected
    case _ => PolicyCheck
  }

  /** An edge that some service takes. */
  predicate Raises(from: CaseStatus, to: CaseStatus) {
    Legal(from, to) && Rank(from) < Rank(to)
  }

  /** The legal relation alone does not bound a run: it has a cycle through two
      edges that no service takes. */
  lemma LegalRelationIsCyclic()
    ensures Legal(PolicyCheck, AwaitingApproval) && Legal(AwaitingApproval, PolicyCheck)
    ensures !Raises(AwaitingApproval, PolicyCheck) && !Raises(RetryScheduled, Scoring)
    ensures forall from, to :: Legal(from, to) && !Raises(from, to) ==>
                                 (from, to) in {(AwaitingApproval, PolicyCheck), (RetryScheduled, Scoring),
                                     (Escalated, Stopped)}
  {
  }
}
