/** Crediting recovered revenue: when a captured payment matches a case, and what is booked. */
module Verification {
  import opened Domain
  import opened Store
  import opened Processor

  datatype Match = Mismatched(reason: Mismatch) | PartialCapture(captured: nat) | FullCapture(credited: nat)

  /** A payment is linked to a case by one of the case's own actions. */
  predicate LinkedByAction(actions: seq<Action>, caseId: nat, p: PaymentId) {
    exists a <- actions :: a.caseId == caseId && (a.reference == Some(p.reference) || a.newPayment == Some(p))
  }

  /** Both the case's payment and `p` carry an order id. */
  predicate BothOrdered(c: Case, p: PaymentId, payments: map<PaymentId, Payment>)
    requires p in payments
  {
    && c.payment.Some? && c.payment.value in payments && c.payment.value.merchant == c.merchant
    && payments[c.payment.value].order.Some? && payments[p].order.Some?
  }

  predicate SameOrder(c: Case, p: PaymentId, payments: map<PaymentId, Payment>)
    requires p in payments
  {
    BothOrdered(c, p, payments) && payments[c.payment.value].order == payments[p].order
  }

  predicate InsideWindow(openedAt: Micros, capturedAt: int, window: int, grace: int) {
    openedAt - grace <= capturedAt <= openedAt + window
  }

  /** _evaluate, check by check. */
  function EvaluateMatch(db: Db, u: Work, p: PaymentId): Match
    requires p in u.payments
  {
    var c, pay := u.row, u.payments[p];
    if p.merchant != c.merchant then Mismatched(MerchantMismatch)
    else if pay.customer != c.customer then Mismatched(CustomerMismatch)
    else if BothOrdered(c, p, u.payments) && !SameOrder(c, p, u.payments) then Mismatched(OrderMismatch)
    else if c.payment.Some? && c.payment.value != p
            && !(SameOrder(c, p, u.payments) || LinkedByAction(u.tools.actions, u.id, p)) then Mismatched(PaymentMismatch)
    else if pay.currency != c.currency then Mismatched(CurrencyMismatch)
    else if pay.status != Captured || pay.capturedAt.None? then Mismatched(NotCaptured)
    else if !InsideWindow(c.openedAt, pay.capturedAt.value, db.window, db.grace) then Mismatched(OutsideRecoveryWindow)
    else if pay.amount == 0 then Mismatched(AmountMismatch)
    else if pay.amount < c.amountAtRisk then PartialCapture(pay.amount)
    else FullCapture(c.amountAtRisk)
  }

  predicate CountedElsewhere(db: Db, u: Work, p: PaymentId) {
    exists j | 0 <= j < |db.cases| && j != u.id ::
      db.cases[j].merchant == u.row.merchant && db.cases[j].verifiedPayment == Some(p) && db.cases[j].amountRecovered > 0
  }

  /** _duplicate_or_already_counted. */
  function Duplicate(db: Db, u: Work, p: PaymentId, event: Option<EventKey>): Option<Mismatch> {
    if event.Some? && u.row.verifiedEvent == event then Some(DuplicateEvent)
    else if u.row.verifiedPayment == Some(p) || CountedElsewhere(db, u, p) then Some(AlreadyCounted)
    else None
  }

  function ResolvePayment(u: Work, payment: Option<PaymentId>): Option<PaymentId> {
    var target := if payment.Some? then payment else u.row.payment;
    if target.Some? && target.value in u.payments then target else None
  }

  function EnsureVerifying(u: Work, settings: PolicySettings, env: Env, now: Micros): Work {
    if u.row.status == Verifying || u.row.status == Recovered then u
    else
      var w := if u.row.status == ActionCompleted then u else ProcessLocked(u, settings, env, now);
      if w.row.status == ActionCompleted then w.Move(Verifying, now) else w
  }

  function Settle(u: Work, verdict: CaseStatus, now: Micros): Work
    requires verdict == Recovered || verdict == NotRecovered
  {
    if u.row.status == Verifying then u.Move(verdict, now) else u
  }

  function ApplyMatch(u: Work, p: PaymentId, event: Option<EventKey>, m: Match, now: Micros): Work
    requires p in u.payments
  {
    match m
    case Mismatched(reason) => Settle(u.Note(Some(reason)), NotRecovered, now)
    case PartialCapture(captured) => Settle(u.Credit(p, event, captured, Some(UnknownMismatch)), NotRecovered, now)
    case FullCapture(credited) =>
      if u.row.status == Verifying then Settle(u.Credit(p, event, credited, None), Recovered, now) else u
  }

  /** verify_case, once the payment is found. */
  function VerifyPayment(db: Db, u: Work, p: PaymentId, event: Option<EventKey>,
                         settings: PolicySettings, env: Env, now: Micros): Work
    requires p in u.payments
  {
    var duplicate := Duplicate(db, u, p, event);
    if duplicate.Some? then u.Note(duplicate)
    else if u.row.status == Recovered then u
    else
      KeepsPayments(u, settings, env, now);
      ApplyMatch(EnsureVerifying(u, settings, env, now), p, event, EvaluateMatch(db, u, p), now)
  }

  /** verify_case on a locked case. */
  function Verify(db: Db, u: Work, payment: Option<PaymentId>, event: Option<EventKey>,
                  settings: PolicySettings, env: Env, now: Micros): Work
  {
    var target := ResolvePayment(u, payment);
    if u.row.status == Stopped then u
    else if target.None? then Settle(u.Note(Some(PaymentMismatch)), NotRecovered, now)
    else VerifyPayment(db, u, target.value, event, settings, env, now)
  }

  /** What verify_case tells its caller. */
  datatype MatchReport = MatchReport(matched: bool, amount: nat, reason: Option<Mismatch>)

  function ReportOf(m: Match): MatchReport {
    match m
    case Mismatched(reason) => MatchReport(false, 0, Some(reason))
    case PartialCapture(captured) => MatchReport(false, captured, None)
    case FullCapture(credited) => MatchReport(true, credited, None)
  }

  function ReportedOn(db: Db, u: Work, p: PaymentId, event: Option<EventKey>): MatchReport
    requires p in u.payments
  {
    var duplicate := Duplicate(db, u, p, event);
    if duplicate.Some? then MatchReport(false, u.row.amountRecovered, duplicate)
    else if u.row.status == Recovered then MatchReport(true, u.row.amountRecovered, None)
    else ReportOf(EvaluateMatch(db, u, p))
  }

  function Reported(db: Db, u: Work, payment: Option<PaymentId>, event: Option<EventKey>): MatchReport {
    var target := ResolvePayment(u, payment);
    if u.row.status == Stopped then MatchReport(false, u.row.amountRecovered, Some(UnknownMismatch))
    else if target.None? then MatchReport(false, 0, Some(PaymentMismatch))
    else ReportedOn(db, u, target.value, event)
  }

  lemma {:induction false} KeepsPayments(u: Work, settings: PolicySettings, env: Env, now: Micros)
    ensures EnsureVerifying(u, settings, env, now).payments == u.payments
  {
    WalkKeeps(u, now);
    var v := Walked(u, now);
    if v.row.status == PolicyCheck {
      ProcessDecidedKeeps(v, ProcessDecision(v, settings, env, now), settings.approvalTtl, now);
    }
  }
}
