# Recovery engine: a verified model

This project models the money path of the recovery engine as a step machine over one store, and
proves what every run of it keeps. The store holds payments, recovery cases, actions, approvals,
idempotency keys, tool calls, notifications, webhook rows and the audit log. A step is one
database transaction: ingesting or processing a provider event, processing or verifying a case,
executing a tool, approving or rejecting an action, the orchestrator's moves, or a rollback.
Steps come in any order, for any cases of any merchants, with any waiting time in between, and
everything read from outside (customer flags, provider answers, draws) is arbitrary.

Beside the machine stand two arithmetic cores: the expected-net-recovery optimizer with its
tie band, and the paired evaluation of two strategies on one random draw per case.

## How it is laid out

- `Domain`, `StateMachine`, `Store`: rows, enumerations, the legal edges, and the unit of work in
  which a service changes one locked case. Money is whole paise, time whole microseconds, ids are
  numbers. The status FAILED of a case is called `ExecutionFailed`.
- `Policy`, `PolicyContext`, `Processor`, `Verification`, `Execution`, `Events`, `Engine`: what each
  service computes, as functions from one unit of work to the next, and runs of steps (`Run`).
- `Sessions`: the same services as the program writes them, a class whose methods assign the case's
  columns and the tables in place, lock, commit and roll back. Each method is proved equal to its
  function, up to `RunAll`, which leaves the store in `Run(old(store), steps)`. So every theorem
  about runs is a theorem about the imperative services.
- `Planning`, `Outcomes`, `ToolOutcomes`, `EventOutcomes`: what each step makes of the store, column by
  column, told by what the store held before (statuses, rows, flags, settings) and without naming
  the functions that compute it.
- `Replay`, `Lifecycle`, `Crediting`, `Ledger`, `Conservation`: the ledger theorems.
- `Tooling`, `Idempotency`, `Rows`, `Gating`, `Quotas`, `Retries`, `Budget`: at most one run per key,
  approval gating, and the three quotas.
- `EventEffects`, `Origins`: exactly-once effect of provider events, and where payments and cases
  come from in runs of the whole engine.
- `Safety`: all invariants of the store together.
- `Scenarios`: runs from the empty store to the states in which the code behaves unexpectedly.
- `Money`, `Erv`, `Ranking`, `Optimizer`: rounding, expected values, and the choice of an action.
- `Simulator`, `BatchEvaluation`: recovery probabilities and the paired comparison.

Amounts in the optimizer and the evaluator are paise as well; percentages and probabilities are
exact rationals. `creditedFrom` in the store is a history variable: what a payment had captured
when a case was last credited from it. It exists to state conservation and influences nothing.

## What turned out differently from what one would expect

- A full capture is credited only if the case can be brought to VERIFYING. Otherwise the
  verification reports a match and books nothing (`Crediting.FullCaptureNeedsVerifying`;
  `Crediting.VerifyCredits` gives the exact condition). `Scenarios.AFullCaptureUnbooked` reaches it:
  the payment is captured while a payment link waits for its approval.
- A key whose first run failed before it had an answer defeats its own later approval: the approved
  call is answered with the stored request for approval, and the key never runs
  (`Idempotency.DefeatedKeyNeverRuns`). `Gating.ApprovalIsReplayedIff` says exactly when an approval
  is answered in this way, and `Scenarios.AnApprovalWithoutEffect` is a run from the empty store that
  gets there: the call is made once while the case is DETECTED and again at the policy check.
- When an approval is given, policy counts the approved row itself. The retry limit denies an approved
  retry if and only if there is no room for one more besides it (`Retries.ApprovedRetryCountsItself`),
  so with a limit of one no approved retry ever runs (`Retries.ApprovedRetryNeedsRoom`). A discount
  approved on the day it was asked for is denied if and only if the budget has no room for it besides
  the day's rows, its own at the whole amount at risk among them
  (`Budget.ApprovedDiscountCountsItself`, `Budget.ApprovedDiscountNeedsRoom`).
  `Scenarios.ARetryDeniedByItself` and `Scenarios.ADiscountDeniedByItself` reach both.
- A comment in tests/test_batch_evaluation.py:350-351 says that a payment link is never less likely
  to recover than doing nothing. The code does not keep that: `Simulator.SixthAttemptFallsBehind`
  is an input. `Simulator.LinkKeepsUpIff` gives the exact condition for every input, on the grid of
  four decimals to which probabilities are rounded; `LinkKeepsUp` reads a guard in the inputs off it,
  and `EarlyLinkKeepsUp` one that needs no arithmetic: the first four attempts, without a cart.
  Paired dominance does not need the comment to be true.
- The legal transitions are cyclic, but no service takes the edges that make them so. The
  orchestrator in particular cannot use the edge from RETRY_SCHEDULED back to SCORING, because its
  first call already attempts to triage the case and raises.
- A negative tie epsilon makes the selection index an empty list (`Ranking.RecoverySelection`).
- The last fallback of the control selection is never reached (`Ranking.ControlSelection`).

## Model

| member | source | states |
|---|---|---|
| StateMachine.LegalRelationIsCyclic | packages/domain/recoverai_domain/state_machine.py:6-39 | The table of legal edges has a cycle, and the only legal edges that do not raise the lifecycle rank are AWAITING_APPROVAL to POLICY_CHECK, RETRY_SCHEDULED to SCORING and ESCALATED to STOPPED. |
| Money.RoundHalfEven | packages/domain/recoverai_domain/money.py:9-22 | The whole number of paise nearest to the value, the even one when two are equally near (roundTiesToEven, section 4.3.1 of IEEE 754-2008). |
| Money.RoundingIsUnique | packages/domain/recoverai_domain/money.py:9-22 | No other integer satisfies that description, so the contract is the rounding. |
| Money.RoundingStaysWithin | packages/domain/recoverai_domain/policy_engine.py:305-317 | If spent money plus an unrounded discount is within a limit, spent money plus the rounded discount is within the limit rounded to whole paise. |
| Replay.ReplayCounts | packages/domain/recoverai_domain/transitions.py:69-96 | A log that replays adds exactly its number of transitions to the version, and cannot hold more of them than the ranks it climbed. |
| Replay.CommitExtendsOneLog | packages/domain/recoverai_domain/transitions.py:78-94 | Committing a unit of work appends its rows to the log of its own case and to no other. |
| Policy.EvaluateAction | packages/domain/recoverai_domain/policy_engine.py:43-92 | The evaluation loop returns the declarative verdict on the rules that fire: any denial wins, a denied action never asks for approval, the worst risk counts. |
| Policy.Accumulate | packages/domain/recoverai_domain/policy_engine.py:64-92 | One pass over rule hits computes that verdict for every list of hits. |
| Policy.WorstRiskBoundsAll | packages/domain/recoverai_domain/policy_engine.py:66-76 | The accumulated risk is at least every hit's risk and is GREEN or some hit's own. |
| Policy.TighteningNeverLoosens | packages/domain/recoverai_domain/policy_engine.py:186-360 | Lower limits and thresholds, higher counts and spend or more blocks never allow a denied action, never lower the risk, and never drop a required approval of an action that stays allowed. |
| Policy.AllowedIff | packages/domain/recoverai_domain/policy_engine.py:186-360 | An action is allowed if and only if no restriction bites, and asks for approval if and only if it is also above the medium or high threshold and not a control strategy. |
| Policy.RiskIff | packages/domain/recoverai_domain/policy_engine.py:186-360 | The risk is RED if and only if the amount is high or something other than a frequency limit or quiet hours forbids the action, and GREEN if and only if no rule stronger than green applies. |
| Policy.RulesIff | packages/domain/recoverai_domain/policy_engine.py:186-360 | A rule is named in the verdict if and only if its own condition on context and proposal holds, rule by rule. |
| Policy.RemindersAtQuietHours | packages/domain/recoverai_domain/policy_engine.py:351-370 | A reminder is denied by quiet hours if and only if the hour is one of those counted off round the clock from the start of the quiet time up to its end. |
| Policy.VerdictBySilence | packages/domain/recoverai_domain/policy_engine.py:64-92 | Each field of the verdict says whether some rule that applies denies, asks for approval, is red, or is not green. |
| Processor.FindAction | packages/domain/recoverai_domain/processor.py:266-274 | Finds a row with the key if and only if there is one. |
| Planning.ContextReads | packages/domain/recoverai_domain/policy_context.py:30-164 | What policy is given: the number of the case's retries that have not failed, been blocked or cancelled; of notifications in the last 24 hours; the sum of today's discounts that have not been dropped; and suspicion by customer flag or by an identity mismatch of the last verification. |
| Planning.PlanIsDecided | packages/domain/recoverai_domain/processor.py:86-114 | The decision on the planned action: escalate if and only if the case is suspect, else stop if and only if the action is blocked, switched off, over its limit or unwelcome, else ask if and only if the amount is above a threshold, else go. |
| Planning.PlanIsChosen | packages/domain/recoverai_domain/processor.py:245-254 | A retry is planned for a bank error, a timeout or missing funds on the case's own payment, a payment link for anything else. |
| Outcomes.ProcessingOutcome | packages/domain/recoverai_domain/processor.py:59-211 | A case up to its policy check ends ESCALATED, STOPPED with its closing time, AWAITING_APPROVAL or ACTION_COMPLETED as that decision says, with its version, its planned row, the request an hour ahead, and a pending approval that lasts for the merchant's time to live; any other case, and everything else, stays. |
| Outcomes.LatestIsLast | packages/domain/recoverai_domain/tools/approvals.py:214-225 | The approval that is decided is the last one asked for this row of this case, and none if and only if there is none. |
| ToolOutcomes.HandlerLeaves | packages/domain/recoverai_domain/tools/handlers.py:226-522 | Tool by tool: when a handler succeeds, the payment that a retry books (customer, order, amount, status, captured time), the one notification of a reminder, and where the case is to go: ESCALATE to ESCALATED, DO_NOTHING to STOPPED, RETRY_LATER to RETRY_SCHEDULED, the others to ACTION_COMPLETED. |
| ToolOutcomes.PerformLeaves | packages/domain/recoverai_domain/tools/execution.py:469-630 | A run leaves the case where its tool does from the status it had, its row with request, reference, amount and new payment, and payments and notifications as the handler does. |
| ToolOutcomes.HandlerCrashes | packages/domain/recoverai_domain/tools/handlers.py:226-470 | A handler crashes if and only if a retry finds its payment booked already, or a discount is negative. |
| ToolOutcomes.ExecutionOutcome | packages/domain/recoverai_domain/tools/execution.py:153-307 | Every call of a client, from schema, closed case, key conflict, replay and busy key to refused status, denial, request for approval, crash or run: what it is answered, what its key and its call record, and what it does to the store. |
| ToolOutcomes.ToolLeavesCase | packages/domain/recoverai_domain/tools/handlers.py:525-585 | Where a called or approved tool leaves the case, status by status: ESCALATED and open, STOPPED and closed, RETRY_SCHEDULED from the policy check alone, ACTION_COMPLETED or FAILED; a request for approval leaves it waiting, and every other answer leaves it as it was. |
| ToolOutcomes.ApprovalOutcome | packages/domain/recoverai_domain/tools/approvals.py:34-107 | Giving an approval: which errors answer a missing row, a missing, expired or decided approval or a row that is past approval; otherwise the latest approval is granted, the row approved, and its recorded call made under it. |
| Lifecycle.ProcessTracks | packages/domain/recoverai_domain/processor.py:59-211 | Processing takes only rising legal edges, logs each, and ends settled, or leaves a settled or executing case untouched. |
| Lifecycle.EnsureVerifyingTracks | packages/domain/recoverai_domain/verification.py:311-336 | Driving a case to VERIFYING takes only rising legal edges and ends in VERIFYING or in a status from which nothing is driven any more. |
| Lifecycle.VerifyKeeps | packages/domain/recoverai_domain/verification.py:33-95 | A verification keeps the audit log faithful, the case sound, and the ledger of a terminal case as it was. |
| Lifecycle.ApplySound | packages/domain/recoverai_domain/verification.py:338-419 | Crediting or failing a case keeps the credit rule: at most the amount at risk, all of it exactly in RECOVERED, and only from a payment of the case's merchant. |
| Lifecycle.ExecuteKeeps | packages/domain/recoverai_domain/tools/execution.py:153-307 | An execution takes only rising legal edges, never leaves the case newly executing, and never touches its money or a terminal case. |
| Lifecycle.ApproveKeeps | packages/domain/recoverai_domain/tools/approvals.py:34-107 | The same of an approval with the execution it re-enters. |
| Outcomes.RejectionOutcome | packages/domain/recoverai_domain/tools/approvals.py:109-187 | A rejection rejects the latest approval whatever its status, cancels the row, fails its key and keeps the key's answer, moves a waiting case to ESCALATED and leaves it open, and changes nothing else; without an approval the store stays as it was. |
| Lifecycle.WalkFollows | packages/domain/recoverai_domain/processor.py:213-243 | The walk to the policy check attempts a forbidden transition exactly on the statuses that it cannot tell apart. |
| Lifecycle.AdvancedFollows | packages/domain/recoverai_domain/agents/orchestrator.py:286-311 | Any number of the orchestrator's advances takes only rising edges, although one of its targets can legally be reached by a falling one. |
| Outcomes.FailClosedOutcome | packages/domain/recoverai_domain/agents/orchestrator.py:339-349 | Failing closed escalates a case at its policy check, leaves it open, and changes nothing otherwise. |
| Outcomes.PreparationOutcome | packages/domain/recoverai_domain/processor.py:213-243 | Preparing the policy check takes an earlier case there, one version a stage; leaves one there or on its way on alone; and audits a refused transition for any other. |
| Outcomes.AdvanceOutcome | packages/domain/recoverai_domain/agents/orchestrator.py:286-311 | A number of advances takes an early case that many stages on, or leaves it if it has come so far; it leaves a closed case and one at its policy check or beyond alone; for any other the first advance is refused. |
| Lifecycle.WorkedKeeps | packages/domain/recoverai_domain/transitions.py:29-96 | Every transaction keeps its case's log replayable and its row sound, freezes a terminal ledger, and changes money only in a verification. |
| Ledger.AuditReplays | packages/domain/recoverai_domain/transitions.py:44-96 | Over any run, the audit rows of a case replay from DETECTED to its status, version, closing time and recovered amount; the version is one plus the number of transitions; the closing time is set exactly in a terminal status. |
| Ledger.LifecycleIsBounded | packages/domain/recoverai_domain/processor.py:59-243 | No case takes more than twelve transitions, and none rests in EXECUTING or VERIFYING. |
| Ledger.ServicesAttemptOnlyLegalMoves | packages/domain/recoverai_domain/transitions.py:44-67 | Processing, verification, execution, approval and rejection never attempt a forbidden transition. |
| Ledger.CreditIsCharacterised | packages/domain/recoverai_domain/verification.py:338-419 | In every reachable state the recovered amount is between zero and the amount at risk, and equals it exactly in RECOVERED when there is something at risk. |
| Ledger.TerminalIsFrozen | packages/domain/recoverai_domain/verification.py:43-52 | Once a case is RECOVERED or STOPPED, no later step changes its status, version, closing time, recovered amount or verified ids. |
| EventOutcomes.OneLiveCase | packages/domain/recoverai_domain/processing.py:379-428 | In every reachable store at most one case of a payment is neither RECOVERED nor STOPPED, without a database index. |
| Crediting.MatchIffEvidence | packages/domain/recoverai_domain/verification.py:152-275 | The chain of checks finds no mismatch if and only if the evidence holds: same merchant, customer and currency, captured in the window, and the case's own payment, one of the same order, or one whose reference or id a row of the case names; a match is partial exactly below the amount at risk. |
| Crediting.MismatchIsFirstFailure | packages/domain/recoverai_domain/verification.py:152-275 | A payment that is no evidence is refused with the first requirement it lacks, in the program's order; so with PAYMENT_MISMATCH when merchant, customer and order agree and it belongs to the case in none of the three ways. |
| Crediting.VerifyingReached | packages/domain/recoverai_domain/verification.py:311-336 | The case stands at VERIFYING for the verdict if and only if it waits there or just before, or policy lets its planned action through now. |
| Crediting.VerifyCredits | packages/domain/recoverai_domain/verification.py:33-95 | A verification books the captured amount up to the amount at risk if and only if the case is not terminal, the payment is neither duplicate nor counted, the evidence holds, and a full capture finds the case at VERIFYING; otherwise it books nothing. |
| Outcomes.VerificationOutcome | packages/domain/recoverai_domain/verification.py:33-95 | From every status in which a case rests: whether it stays, is told why its payment is refused, or is paid in part or in full, with its status, closing time, mismatch, recovered amount and verified ids; no other case changes. |
| Outcomes.ReportOutcome | packages/domain/recoverai_domain/verification.py:33-275 | What the caller of a verification is told: matched, amount and reason, in every case. |
| Crediting.FullCaptureNeedsVerifying | packages/domain/recoverai_domain/verification.py:338-391 | On a case that has left the processing path, a matching full capture changes nothing at all. |
| Crediting.VerifyTwice | packages/domain/recoverai_domain/verification.py:33-95 | Verifying twice with the same payment and event is verifying once, from every status, even when the first call processes the case and policy answers differently the second time. |
| Crediting.ReportedMatchIsCreditedIff | packages/domain/recoverai_domain/verification.py:33-95 | A reported reason means no credit; no reason and no match means a partial credit of the reported amount; a reported match is credited if and only if the case reaches VERIFYING. |
| Conservation.NoPaymentCountsTwice | packages/domain/recoverai_domain/verification.py:103-150 | In every reachable state no payment is the verified payment of two cases with positive credit, across merchants. |
| Conservation.RecoveryIsConserved | packages/domain/recoverai_domain/verification.py:103-150 | The total recovered over all cases is at most the sum, over the distinct payments counted, of what each had captured when it was credited. |
| Conservation.CreditNeedsEvidence | packages/domain/recoverai_domain/verification.py:152-309 | A step that changes a case's recovered amount or verified ids is a verification of that case, with a payment for which the evidence holds. |
| Conservation.VerifyingTwiceIsVerifyingOnce | packages/domain/recoverai_domain/verification.py:33-95 | Two committed verifications in a row leave the ledger as the first one left it, however long the second one waits. |
| Tooling.PerformShape | packages/domain/recoverai_domain/tools/execution.py:469-630 | A run changes its own action row only, adds at most one notification, for the case's own customer, and records the rounded discount of the request. |
| Tooling.RunJudgedShape | packages/domain/recoverai_domain/tools/execution.py:309-630 | Each outcome of a run, the verdict and approval that let it happen, and exactly what it does to actions and approvals. |
| Idempotency.AtMostOneRunPerKey | packages/domain/recoverai_domain/tools/execution.py:197-307 | Over any run, each merchant and idempotency key has at most one completed handler run. |
| Idempotency.AnswerStands | packages/domain/recoverai_domain/tools/execution.py:202-238 | Once a key has run, every later call with the same request is told the stored result, any other request conflicts, and neither changes the store. |
| Idempotency.OtherRequestConflicts | packages/domain/recoverai_domain/tools/idempotency.py:73-82 | A request that differs from the one a key was opened with is refused and changes nothing, settled or not. |
| Idempotency.DefeatedKeyNeverRuns | packages/domain/recoverai_domain/tools/execution.py:197-307 | Once a key that is not in progress holds an answer other than a handler's, such as a request for approval, no later execution, approval or rejection ever runs its handler, and its answer stays. |
| Rows.RunKeepsTablesSound | packages/domain/recoverai_domain/tools/execution.py:671-769 | In every reachable state action keys are distinct, rows belong to their case and merchant, an open discount row stands for the whole amount at risk within the percentage cap, and every approval speaks for a fingerprinted row of its own case. |
| Gating.HandlersAreGated | packages/domain/recoverai_domain/tools/execution.py:356-467 | In every reachable state a handler runs only on an executable case, when policy allows the tool in the same step, and either needs no approval or has a pending, unexpired approval of this case being given whose fingerprint is the current case's. |
| Gating.OneRunPerApproval | packages/domain/recoverai_domain/tools/approvals.py:34-107 | One approval authorises at most one handler run over any run of steps, and none while it is pending. |
| Gating.OnlyRunsHaveEffects | packages/domain/recoverai_domain/tools/execution.py:469-545 | Outside event processing, a step that books a payment or adds a notification brings a handler run to its end. |
| Gating.ApprovalIsReplayedIff | packages/domain/recoverai_domain/tools/execution.py:209-238 | An approval that is given is answered with the stored result, and runs nothing, if and only if the request is valid, the case is not terminal and the action's key is settled on that request; it gets past the key if and only if, besides, the key is new or holds that request unsettled. |
| Gating.ApprovalIsStaleIff | packages/domain/recoverai_domain/tools/execution.py:771-794 | An approval that is being given is refused by the execution only as stale, and if and only if the amount at risk, payment, customer, mismatch or recovered amount of its case has changed since it was asked for. |
| Quotas.GateLimitsNotices | packages/domain/recoverai_domain/policy_context.py:130-144 | A reminder that policy allows finds fewer notifications than the limit in the 24 hours before it. |
| Quotas.CommunicationsStayWithinQuota | packages/domain/recoverai_domain/policy_context.py:130-144 | In any 24-hour window, however placed, a customer of a merchant has at most the limit of notifications, over runs mixing cases, replays and approvals. |
| Retries.RetriesStayWithinLimit | packages/domain/recoverai_domain/policy_context.py:106-127 | In every reachable state no case has more pending, running or successful retries than its merchant's limit, over processing, execution, approval and rejection. |
| Retries.ApprovedRetryCountsItself | packages/domain/recoverai_domain/policy_engine.py:222-270 | Policy judges an approved retry with its own row among the counted ones: the retry limit denies it if and only if the counted retries, itself included, have reached the limit. |
| Retries.ApprovedRetryNeedsRoom | packages/domain/recoverai_domain/policy_context.py:106-127 | In every run, an approved retry that runs its handler finds its own row and the others below the limit, which is then at least two. |
| Budget.ApprovedDiscountCountsItself | packages/domain/recoverai_domain/policy_context.py:147-164 | A discount approved on the day of its request is judged with its own row, at the whole amount at risk, among the day's spending: the budget rule denies it if and only if the budget has no room for the discount besides. |
| Budget.ApprovedDiscountNeedsRoom | packages/domain/recoverai_domain/policy_context.py:147-164 | In every run, an approved discount that runs on the day of its request finds room in the budget for its whole amount at risk and the discount together. |
| Budget.CommittedIsCounted | packages/domain/recoverai_domain/policy_context.py:147-164 | What today's rows have cost or may still cost is at most what policy counts as spent today. |
| Budget.GrantedRunIsFree | packages/domain/recoverai_domain/tools/approvals.py:94-107 | Running an approved discount costs exactly what its open row already stood for, on whichever day. |
| Budget.FirstRunFits | packages/domain/recoverai_domain/policy_engine.py:305-317 | A new discount, granted or put up for approval, keeps every day within the budget. |
| Budget.DiscountsStayWithinBudget | packages/domain/recoverai_domain/policy_engine.py:305-317 | For each day, the discounts granted by rows created on it sum to at most the merchant's budget rounded to paise, if percentage caps are at most 100. |
| Budget.WholeBudgetIsKept | packages/domain/recoverai_domain/policy_engine.py:305-317 | A budget of whole paise is kept to the paisa. |
| EventEffects.EachEventOnce | packages/domain/recoverai_domain/processing.py:79-155 | In any run of the whole engine each event is processed at most once, and exactly the processed ones are logged. |
| EventEffects.EventsTakeEffectOnce | packages/domain/recoverai_domain/processing.py:79-155 | Wherever a run of the whole engine has got to, any further ingests, duplicates, processings, rolled-back crashes and dead-letter marks make of payments and cases what one pass over the newly processed events, in order, makes of them. |
| EventEffects.FirstDeliveryStands | packages/domain/recoverai_domain/ingestion.py:76-242 | A delivery of a known event id leaves the store as it was, one of a new id adds exactly one RECEIVED row, and over any later run the row says what the first delivery said. |
| EventEffects.SettledEventsAreFinal | packages/domain/recoverai_domain/processing.py:194-212 | Over any run a processed or buried row stays as it is, and a buried event is never logged as processed. |
| EventEffects.UpdateTells | packages/domain/recoverai_domain/processing.py:271-350 | Updating a payment by one event keeps it as its history tells it, downgrade protection included. |
| Origins.EveryPaymentIsExplained | packages/domain/recoverai_domain/processing.py:271-350 | In any run of the whole engine, each payment is what its processed events, in order, make of nothing, or, if an action row names it, of a payment with that row's amount, which existed before any event of its own. |
| Origins.PaymentsTellTheirHistory | packages/domain/recoverai_domain/processing.py:271-350 | In any run of the whole engine, a payment that no action row names exists exactly if it has processed events; its status is that of its last capture or refund if it has one, else of its last event; its amount and capture time are its last capture's. |
| EventOutcomes.EventOutcome | packages/domain/recoverai_domain/processing.py:79-350 | In every reachable store, what processing an event makes of its row, its payment, column by column with downgrade protection, and the cases; when it is logged, buried or rolled back. |
| EventOutcomes.FailureOpensIff | packages/domain/recoverai_domain/processing.py:379-428 | A failure that can be attributed opens a case if and only if every case of its merchant and payment is RECOVERED or STOPPED; the new case is DETECTED, version 1, opened now, for the payment's customer, currency and amount, with nothing recovered. |
| EventOutcomes.CaseOpensOnlySo | packages/domain/recoverai_domain/processing.py:379-428 | A step of any service opens a case if and only if it is the processing of such a failure. |
| EventOutcomes.DeliveryOutcome | packages/domain/recoverai_domain/ingestion.py:76-242 | A delivery adds one waiting row for a new event of a known merchant, and nothing else. |
| EventOutcomes.LossOutcome | packages/domain/recoverai_domain/processing.py:194-212 | A job that is lost for good buries a row that still waits, and changes nothing else. |
| Origins.EveryCaseHasItsFailure | packages/domain/recoverai_domain/processing.py:379-428 | In any run of the whole engine, each case was opened by a processed failure of its own payment, and no failure opened two. |
| Safety.EveryRunIsSafe | apps/worker/recoverai_worker/jobs.py:34-58 | From the empty store, every run keeps all invariants together: audit log, open cases, books, keys, rows, three quotas, event log, payments that their events explain, and a failure behind every case. |
| Safety.Operate | apps/worker/recoverai_worker/jobs.py:34-58 | The imperative services, run on an empty store in any order, leave it in such a state. |
| Erv.ErvIsNearExact | packages/domain/recoverai_domain/optimizer/erv.py:37-69 | A value exists exactly for probabilities in [0, 1], is within half a paisa of the exact one, all four costs subtracted, and lies between losing all costs and recovering the whole amount. |
| Erv.ErvRises | packages/domain/recoverai_domain/optimizer/erv.py:44-69 | A likelier recovery of a larger amount is never worth less, after rounding. |
| Erv.CostsAreCharged | packages/domain/recoverai_domain/optimizer/erv.py:72-91 | Every action is charged with its three assumed costs, each rounded, and an offered discount alone with the rounded concession; when an action has no price. |
| Ranking.RankedIsFalling | packages/domain/recoverai_domain/optimizer/ranking.py:80-81 | The stable sort puts the highest key first. |
| Ranking.RecoverySelection | packages/domain/recoverai_domain/optimizer/ranking.py:39-84 | When a recovery intervention contends, the choice contends, lies within the band of the highest value, and nothing in the band precedes it by the tie key; with a negative band the program fails instead. |
| Ranking.ControlSelection | packages/domain/recoverai_domain/optimizer/ranking.py:87-117 | Without a contender, a suspicious case is escalated, any other is left alone, escalation stands in, and no other fallback is ever reached. |
| Ranking.NoLosingRecovery | packages/domain/recoverai_domain/optimizer/ranking.py:55-84 | Only eligible candidates are selected, and no recovery action of negative value. |
| Ranking.OrderDoesNotMatter | packages/domain/recoverai_domain/optimizer/ranking.py:18-117 | Candidates with distinct actions give the same selection in every order. |
| Ranking.LeastIsUnique | packages/domain/recoverai_domain/optimizer/ranking.py:18-28 | Among candidates with distinct actions, the least by the tie key in the band is unique. |
| Ranking.TieOrder | packages/domain/recoverai_domain/optimizer/ranking.py:18-28 | The tie key puts the gentler action first, then the lower direct cost, then the lower penalty; simplicity and name never decide. |
| Ranking.RegretIsBounded | packages/domain/recoverai_domain/optimizer/ranking.py:55-84 | The exact value of a selected recovery intervention is within the tie epsilon and 1.5 paise of that of every eligible one. |
| Optimizer.NormalizeCandidates | packages/domain/recoverai_domain/optimizer/service.py:287-300 | The loop keeps each action once, where it first stands, or reports the first unknown one. |
| Optimizer.DeduplicatedIsDistinct | packages/domain/recoverai_domain/optimizer/service.py:290-300 | The normalized list has no repetitions and the same actions as the caller's. |
| Optimizer.ScoreAll | packages/domain/recoverai_domain/optimizer/service.py:82-126 | Scores every action, or stops at one that cannot be priced. |
| Optimizer.Optimize | packages/domain/recoverai_domain/optimizer/service.py:61-138 | Refuses unknown actions, fails on an action that cannot be priced, and otherwise selects among the scored candidates. |
| Optimizer.ScoringOutcome | packages/domain/recoverai_domain/optimizer/service.py:82-126 | How an action is scored: at its own costs and its expected net recovery, allowed if and only if policy allows it on the priced discount, not at all without a quote; and when it stops the optimizer. |
| Optimizer.ChoiceIgnoresOrder | packages/domain/recoverai_domain/optimizer/service.py:128-138 | The choice depends on the set of candidate actions alone, not on order or repetitions. |
| Optimizer.ChoiceIsAllowedAndNearBest | packages/domain/recoverai_domain/optimizer/service.py:303-365 | Only an action that policy allows is selected, and a recovery intervention only at a value that is not negative and within the regret bound. |
| Simulator.CaptureProbability | packages/providers/recoverai_providers/simulator/outcomes.py:17-46 | A simulated attempt captures with a probability between 0 and 0.8. |
| Simulator.CaptureImprovesWithAttempts | packages/providers/recoverai_providers/simulator/outcomes.py:17-46 | A later attempt with fewer earlier failures is never less likely to capture. |
| Simulator.Clip | packages/providers/recoverai_providers/simulator/interventions.py:41-46 | The clipped and quantized probability stays between 0 and 0.95. |
| Simulator.Probability | packages/providers/recoverai_providers/simulator/interventions.py:53-172 | No action is ever more than 95 per cent likely to recover, whatever the context. |
| Simulator.PromiseIsKept | packages/providers/recoverai_providers/simulator/interventions.py:53-172 | More success or earlier recoveries never hurt, and more communications or an older cart never help, for every failure and every action. |
| Simulator.ExpiredCardsNeedLinks | packages/providers/recoverai_providers/simulator/interventions.py:99-131 | On an expired card a payment link is always likelier than any retry, by seven per cent or more. |
| Simulator.MissingFundsNeedTime | packages/providers/recoverai_providers/simulator/interventions.py:99-119 | Where funds are missing, waiting is never less likely to succeed than retrying at once. |
| Simulator.LinkKeepsUpIff | packages/providers/recoverai_providers/simulator/interventions.py:121-168 | A payment link is at least as likely as doing nothing if and only if the reason is a hard failure, an expired card, a decline or a bank error, or doing nothing has no chance on the grid of four decimals, or the link's margin does not take that chance below its grid point. |
| Simulator.LinkKeepsUp | packages/providers/recoverai_providers/simulator/interventions.py:121-168 | It is so whenever the margin, a sum of bonuses and penalties of the inputs, is not negative. |
| Simulator.EarlyLinkKeepsUp | packages/providers/recoverai_providers/simulator/interventions.py:121-168 | It is so on the first four attempts without a cart, whatever else the context says. |
| Simulator.LinkFallsBehind | packages/providers/recoverai_providers/simulator/interventions.py:121-168 | Where the margin is negative by more than the rounding and doing nothing has a chance at all, the link is strictly less likely. |
| Simulator.SixthAttemptFallsBehind | packages/providers/recoverai_providers/simulator/interventions.py:121-168 | A concrete input on which the link is less likely than doing nothing. |
| BatchEvaluation.ActionCost | packages/eval/recoverai_eval/batch_evaluation.py:187-225 | What each action costs in all, and that only doing nothing is free. |
| BatchEvaluation.FindBest | packages/eval/recoverai_eval/batch_evaluation.py:142-181 | The loop finds the first action of the highest value above its floor. |
| BatchEvaluation.ReviveXStrategy | packages/eval/recoverai_eval/batch_evaluation.py:126-184 | The strategy picks that action, or does nothing when there is none. |
| BatchEvaluation.ChosenIsBest | packages/eval/recoverai_eval/batch_evaluation.py:171-183 | No action is worth more than the choice. |
| BatchEvaluation.ChosenIsLikelier | packages/eval/recoverai_eval/batch_evaluation.py:171-183 | The choice is at least as likely to recover as doing nothing, for every amount. |
| BatchEvaluation.PairedCase | packages/eval/recoverai_eval/batch_evaluation.py:228-290 | On each case and draw, what the baseline recovers ReviveX recovers too. |
| BatchEvaluation.EvaluateCase | packages/eval/recoverai_eval/batch_evaluation.py:228-290 | A case is recovered if and only if its draw is below the probability of the chosen action, and the draw is that of the seed and the case, not of the strategy; what is recovered, what it costs, and how it ends. |
| BatchEvaluation.EvaluateBatch | packages/eval/recoverai_eval/batch_evaluation.py:320-348 | The comparison is that of the two strategies' metrics over the same cases and draws. |
| BatchEvaluation.ReviveXNeverLoses | packages/eval/recoverai_eval/batch_evaluation.py:293-348 | For every list of cases, seed and draw, incremental revenue, recovered cases, recovery rate and uplift are never below the baseline's. |
| BatchEvaluation.MetricsAddUp | packages/eval/recoverai_eval/batch_evaluation.py:293-318 | Money at risk, recovered money, cost and net recovery are sums over the results, the recovered, escalated and stopped cases counts of them, and the rate is the share of the money at risk. |
| BatchEvaluation.IncrementIsPaired | packages/eval/recoverai_eval/batch_evaluation.py:320-348 | The increment is the sum, over the cases, of what the choice brings beyond doing nothing on the same draw, and the uplift its share of what the baseline recovers. |
| Sessions.Session.CommitWork | apps/worker/recoverai_worker/jobs.py:34-58 | Committing writes the row, the audit rows and the tables back, and nothing else. |
| Sessions.Session.Transition | packages/domain/recoverai_domain/transitions.py:29-96 | A legal transition sets status, version and closing time and is audited; an illegal one is audited as refused and changes nothing else. |
| Sessions.Session.WalkToPolicyCheck | packages/domain/recoverai_domain/processor.py:223-243 | The loop over the stages takes an early case to its policy check, and raises exactly on the statuses it cannot tell apart. |
| Sessions.Session.ProcessLockedCase | packages/domain/recoverai_domain/processor.py:59-211 | Processing in place is the function that the theorems are about, and leaves case, planned row and approval as ProcessingOutcome tells. |
| Sessions.Session.VerifyCase | packages/domain/recoverai_domain/verification.py:33-95 | The same of a whole verification, of what it reports, and of the columns it leaves. |
| Sessions.Session.PerformTool | packages/domain/recoverai_domain/tools/execution.py:469-630 | The run from the started row to the case's outcome, with what it leaves of case, row, payments and notifications. |
| Sessions.Session.RunAfterIdempotency | packages/domain/recoverai_domain/tools/execution.py:309-630 | State check, policy, approval and run, in the program's order of effects. |
| Sessions.Session.ExecuteTool | packages/domain/recoverai_domain/tools/execution.py:153-307 | The whole execution, error answers and replays included, as ExecutionOutcome tells it. |
| Sessions.Session.ApproveAction | packages/domain/recoverai_domain/tools/approvals.py:34-107 | Decides the pending approval and re-enters execution with it, as ApprovalOutcome tells it. |
| Sessions.Session.RejectAction | packages/domain/recoverai_domain/tools/approvals.py:109-187 | Rejects whatever the approval's status, cancels the row, fails the key, escalates a waiting case and leaves it open. |
| Sessions.Session.AdvanceThrough | packages/domain/recoverai_domain/agents/orchestrator.py:286-311 | Advances stage by stage until one is refused, and so far as AdvanceOutcome tells. |
| Sessions.Session.ProcessWebhookEvent | packages/domain/recoverai_domain/processing.py:79-155 | A waiting event is applied, ignored or buried, or crashes and is rolled back, as EventOutcome tells it. |
| Sessions.Session.OpenCase | packages/domain/recoverai_domain/processing.py:379-428 | Searches the cases for one of the payment that is not closed, and adds a fresh one if there is none. |
| Sessions.Session.RunStep | apps/worker/recoverai_worker/jobs.py:34-58 | A transaction is committed whole, or leaves the store as it was. |
| Sessions.Session.RunAll | apps/worker/recoverai_worker/jobs.py:34-58 | A sequence of transactions leaves the store where the run of steps ends, so all theorems on runs hold of it. |
| Scenarios.AnApprovalWithoutEffect | packages/domain/recoverai_domain/tools/execution.py:197-307 | A run from the empty store after which a pending, unexpired approval covers an executable case, is answered with its own request when it is given, and its key runs nothing in any continuation. |
| Scenarios.ARetryDeniedByItself | packages/domain/recoverai_domain/policy_context.py:106-127 | A run from the empty store after which the approval of a case's only retry is given within a limit of one and denied by the retry limit. |
| Scenarios.ADiscountDeniedByItself | packages/domain/recoverai_domain/policy_context.py:147-164 | A run from the empty store after which the approval of a discount of 20000 paise is given within an unspent budget of 50000 and denied by the budget. |
| Scenarios.AFullCaptureUnbooked | packages/domain/recoverai_domain/verification.py:338-391 | A run from the empty store after which the verification of a full capture reports a match and leaves the store as it was. |

## Left out

- The reference that a reminder leaves in its row: it is the notification's own and never a payment's, so no verification can find it.
- HTTP routers, user interface, health checks, logging and queues: only the commit and rollback boundary is kept. Follow-up jobs are arbitrary later steps.
- Database races: a step is atomic, so nothing is claimed about two verifications that interleave on one payment, and the branches on integrity errors are not modelled.
- Merchant and permission arguments of the entry points, and the errors for a missing case, customer or merchant: a step on a case that does not exist changes nothing.
- Read-only tools, and the bodies of the payment provider: its answer is an arbitrary success or failure.
- Tool input schemas beyond the discount percentage and the schedule: a valid input is of the tool's own shape.
- An existing action id comes only from the approval service. Without that, the upsert would take a row of another case.
- Client idempotency keys never use the prefix that the processor reserves for planned actions.
- Execution.GrantError: an approval that has expired inside an execution is refused but not marked expired there; with one time per step the approval service has already expired and refused it before.
- Expiry of idempotency keys and attempt numbers of actions: no modelled decision reads them.
- Notification statuses: no modelled service cancels a notification, so each one counts.
- Carts, subscriptions, the discount noted on a cart, policy evaluation rows, decision rows, and audit rows other than transitions, refused transitions, recovered amounts and processed events.
- The states FAILED and PROCESSING of a webhook row: they are never committed by its job.
- Cases are opened by failed payments only; checkout and subscription cases are not part of this model.
- Policy settings are fixed per merchant during a run; customer flags and blocked actions are arbitrary in every step.
- Aliasing of ORM row objects: the session holds the columns of its one locked case and the tables as values.
- Float conversion, decimal context precision and time zones: arithmetic is exact, time is an integer.
- Machine-learned probabilities, training, calibration, explanations and agent budgets. In that mode the choice does not use the simulator's probabilities, and dominance does not hold.
- The generator of evaluation cases: the list of cases is arbitrary, with amounts that are not negative.
- Prediction caching and the persistence of optimizer decisions; selection reasons are not modelled, only selections.
