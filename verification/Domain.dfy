/** Identifiers, enumerations and table rows shared by the recovery engine.

    Money is a whole number of paise and time a whole number of microseconds.
    A payment id is the triple that the program hashes with uuid5, and a webhook
    row is named by the pair that the database keeps unique. */
module Domain {
  datatype Option<+T> = None | Some(value: T)

  type MerchantId = nat
  type CustomerId = nat
  type Currency = nat
  type OrderRef = nat
  type ProviderRef = nat
  type Micros = nat

  const MICROS_PER_HOUR: nat := 3_600_000_000
  const MICROS_PER_DAY: nat := 24 * MICROS_PER_HOUR

  datatype PaymentId = PaymentId(merchant: MerchantId, provider: nat, reference: ProviderRef)
  datatype EventKey = EventKey(provider: nat, eventId: nat)

  datatype CaseStatus =
    | Detected | Triaged | Investigating | Diagnosed | Scoring | StrategySelected
    | PolicyCheck | AwaitingApproval | Executing | ActionCompleted | Verifying
    | Recovered | NotRecovered | RetryScheduled | Escalated | Stopped | ExecutionFailed

  datatype PaymentStatus =
    | Created | Authorized | Captured | PaymentFailed
    | Refunded | PartiallyRefunded | Cancelled | Unclear

  datatype ActionKind =
    | RetryNow | RetryLater | SendPaymentLink | SendReminder | OfferDiscount | Escalate | DoNothing

  datatype ActionStatus =
    | Pending | Planned | ApprovalRequired | Approved | Running
    | Succeeded | Completed | ActionFailed | Blocked | ActionCancelled

  datatype ApprovalStatus = AwaitingDecision | Granted | Rejected | Expired
  datatype KeyStatus = InProgress | KeyCompleted | KeyFailed
  datatype EventStatus = Received | Processed | DeadLetter
  datatype Risk = Green | Yellow | Red

  datatype FailureCode =
    | TemporaryBankError | InsufficientFunds | ExpiredCard | Declined | NetworkTimeout
    | MandateFailure | CustomerCancelled | UnknownFailure | OtherFailure(code: nat)

  datatype Mismatch =
    | MerchantMismatch | CustomerMismatch | OrderMismatch | PaymentMismatch | AmountMismatch
    | CurrencyMismatch | OutsideRecoveryWindow | AlreadyCounted | DuplicateEvent | NotCaptured
    | UnknownMismatch

  datatype Payment = Payment(
    customer: CustomerId,
    order: Option<OrderRef>,
    amount: nat,
    currency: Currency,
    status: PaymentStatus,
    failure: Option<FailureCode>,
    capturedAt: Option<int>)

  datatype Case = Case(
    merchant: MerchantId,
    customer: CustomerId,
    payment: Option<PaymentId>,
    status: CaseStatus,
    amountAtRisk: nat,
    amountRecovered: nat,
    currency: Currency,
    version: nat,
    openedAt: Micros,
    closedAt: Option<Micros>,
    mismatch: Option<Mismatch>,
    verifiedPayment: Option<PaymentId>,
    verifiedEvent: Option<EventKey>)

  /** What an approval remembers of the case it was requested for. */
  datatype Fingerprint = Fingerprint(
    amountAtRisk: nat,
    payment: Option<PaymentId>,
    customer: CustomerId,
    mismatch: Option<Mismatch>,
    amountRecovered: nat)

  /** The input of a tool after schema validation. */
  datatype Input = NoInput | Text(text: nat) | Schedule(at: nat) | Discount(percent: real)
  datatype Request = Request(tool: ActionKind, input: Input)

  /** The processor names its planned action after the case; every other key is the client's. */
  datatype Key = PlannedKey(caseId: nat, kind: ActionKind) | ClientKey(name: nat)
  datatype KeyId = KeyId(merchant: MerchantId, key: Key)

  datatype Action = Action(
    keyId: KeyId,
    caseId: nat,
    kind: ActionKind,
    status: ActionStatus,
    amount: nat,
    createdAt: Micros,
    reference: Option<ProviderRef>,
    newPayment: Option<PaymentId>,
    request: Option<Request>,
    fingerprint: Option<Fingerprint>)

  datatype Approval = Approval(caseId: nat, action: nat, status: ApprovalStatus, expiresAt: int)

  datatype Outcome = RunSucceeded | RunFailed | RunBlocked | NeedsApproval
  datatype Result = Result(outcome: Outcome, action: nat, approval: Option<nat>)
  datatype KeyRecord = KeyRecord(status: KeyStatus, request: Request, result: Option<Result>)

  datatype ErrorCode =
    | CaseTerminal | InvalidInput | KeyConflict | KeyBusy | InvalidCaseState | ActionNotFound
    | ApprovalNotFound | ApprovalNotApproved | ApprovalExpired | ApprovalNotPending
    | ActionNotApprovable | StaleApproval

  /** The last word of a tool call: the outcome of the run, or the error that stopped it. */
  datatype CallStatus = Returned(outcome: Outcome) | Failed(error: ErrorCode)
  datatype ToolCall = ToolCall(keyId: KeyId, caseId: nat, tool: ActionKind, status: CallStatus)

  datatype Notice = Notice(merchant: MerchantId, customer: CustomerId, caseId: nat, at: Micros)

  datatype EventKind =
    | FailedEvent | CapturedEvent | RefundedEvent | CancelledEvent | AuthorizedEvent | CreatedEvent

  datatype EventBody =
    | UnknownEvent
    | MalformedEvent
    | PaymentEvent(
        kind: EventKind,
        reference: ProviderRef,
        order: Option<OrderRef>,
        amount: int,
        currency: Currency,
        customer: Option<CustomerId>,
        failure: Option<FailureCode>,
        occurredAt: int)

  datatype Webhook = Webhook(merchant: MerchantId, body: EventBody, status: EventStatus)

  datatype AuditEntry =
    | Moved(from: CaseStatus, to: CaseStatus, version: nat, at: Micros)
    | MoveRejected(from: CaseStatus, to: CaseStatus)
    | AmountUpdated(previous: nat, current: nat)
    | EventDone(event: EventKey, at: Micros)

  datatype AuditRow = AuditRow(caseId: Option<nat>, entry: AuditEntry)

  datatype Tools = Tools(
    actions: seq<Action>,
    approvals: seq<Approval>,
    keys: map<KeyId, KeyRecord>,
    calls: seq<ToolCall>,
    notices: seq<Notice>)

  /** Recovery and policy settings, merged for one merchant. */
  datatype PolicySettings = PolicySettings(
    highThreshold: real,
    mediumThreshold: real,
    maxRetries: int,
    maxDiscountPercent: real,
    dailyBudget: real,
    maxCommunications: int,
    quietStart: int,
    quietEnd: int,
    automatic: bool,
    approvalTtl: int)

  /** What a provider answers, when a tool asks it for something. */
  datatype Reply =
    | ProviderFails
    | PaymentMade(
        provider: nat,
        reference: ProviderRef,
        order: Option<OrderRef>,
        amount: nat,
        currency: Currency,
        status: PaymentStatus,
        failure: Option<FailureCode>,
        occurredAt: int)
    | LinkMade(link: ProviderRef, linkAmount: nat)

  /** Everything a step reads from outside the tables modelled here. */
  datatype Env = Env(
    optedOut: bool,
    suspicious: bool,
    sourceMismatch: bool,
    discountEligible: bool,
    blocked: set<ActionKind>,
    reply: Reply)

  function FingerprintOf(c: Case): Fingerprint {
    Fingerprint(c.amountAtRisk, c.payment, c.customer, c.mismatch, c.amountRecovered)
  }
}
