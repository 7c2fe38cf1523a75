/** What a verification books, exactly: the evidence it needs, and that doing it twice
    books it once. */
module Crediting {
  import opened Domain
  import opened StateMachine
  import opened Store
  import opened Processor
  import opened Planning
  import opened Verification
  import opened Lifecycle

  /** The order under which the case's own payment was made. */
  function OrderOf(c: Case, payments: map<PaymentId, Payment>): Option<OrderRef> {
    match c.payment
    case Some(own) => if own in payments && own.merchant == c.merchant then payments[own].order else None
    case None => None
  }

  /** One of the case's own action rows carries the payment's reference, or names the payment
      as the one that it made. */
  ghost predicate NamedByRow(actions: seq<Action>, caseId: nat, p: PaymentId) {
    exists k | 0 <= k < |actions| ::
      actions[k].caseId == caseId && (actions[k].reference == Some(p.reference) || actions[k].newPayment == Some(p))
  }

  /** The payment carries another order than the case's own payment does. */
  predicate OtherOrder(u: Work, p: PaymentId)
    requires p in u.payments
  {
    var own, order := OrderOf(u.row, u.payments), u.payments[p].order;
    own.Some? && order.Some? && own != order
  }

  /** It is the case's own payment, or of the same order, or named by one of its action rows;
      a case without a payment takes any. */
  ghost predicate BelongsTo(u: Work, p: PaymentId)
    requires p in u.payments
  {
    || u.row.payment.None?
    || u.row.payment == Some(p)
    || (OrderOf(u.row, u.payments).Some? && OrderOf(u.row, u.payments) == u.payments[p].order)
    || NamedByRow(u.tools.actions, u.id, p)
  }

  predicate CapturedInTime(db: Db, c: Case, pay: Payment) {
    pay.capturedAt.Some? && c.openedAt <= pay.capturedAt.value + db.grace && pay.capturedAt.value - c.openedAt <= db.window
  }

  /** The payment is captured money of the case's own customer, in its window, and belongs to
      the case. */
  ghost predicate Evidence(db: Db, u: Work, p: PaymentId) {
    && p in u.payments
    && var c, pay := u.row, u.payments[p];
       && p.merchant == c.merchant && pay.customer == c.customer && pay.currency == c.currency
       && pay.status.Captured? && pay.amount > 0 && CapturedInTime(db, c, pay)
       && BelongsTo(u, p) && !OtherOrder(u, p)
  }

  /** One requirement of the evidence, and what a payment that lacks it is reported as. */
  datatype Check = Check(passes: bool, reason: Mismatch)

  /** The requirements, in the order in which the first one that fails is reported. */
  ghost function Checks(db: Db, u: Work, p: PaymentId): seq<Check>
    requires p in u.payments
  {
    var c, pay := u.row, u.payments[p];
    [ Check(p.merchant == c.merchant, MerchantMismatch),
      Check(pay.customer == c.customer, CustomerMismatch),
      Check(!OtherOrder(u, p), OrderMismatch),
      Check(BelongsTo(u, p), PaymentMismatch),
      Check(pay.currency == c.currency, CurrencyMismatch),
      Check(pay.status.Captured? && pay.capturedAt.Some?, NotCaptured),
      Check(CapturedInTime(db, c, pay), OutsideRecoveryWindow),
      Check(pay.amount > 0, AmountMismatch) ]
  }

  /** The first requirement that fails. */
  ghost predicate FailsFirst(checks: seq<Check>, k: nat) {
    k < |checks| && !checks[k].passes && forall j | 0 <= j < k :: checks[j].passes
  }

  lemma {:induction false} SameNaming(u: Work, p: PaymentId)
    requires p in u.payments
    ensures LinkedByAction(u.tools.actions, u.id, p) <==> NamedByRow(u.tools.actions, u.id, p)
    ensures BothOrdered(u.row, p, u.payments) && !SameOrder(u.row, p, u.payments) <==> OtherOrder(u, p)
    ensures SameOrder(u.row, p, u.payments) <==>
              OrderOf(u.row, u.payments).Some? && OrderOf(u.row, u.payments) == u.payments[p].order
  {
    var actions := u.tools.actions;
    if LinkedByAction(actions, u.id, p) {
      var a :| a in actions && a.caseId == u.id && (a.reference == Some(p.reference) || a.newPayment == Some(p));
      var k :| 0 <= k < |actions| && actions[k] == a;
    }
    if NamedByRow(actions, u.id, p) {
      var k :| 0 <= k < |actions| && actions[k].caseId == u.id
               && (actions[k].reference == Some(p.reference) || actions[k].newPayment == Some(p));
      assert actions[k] in actions;
    }
  }

  /** A payment that is no evidence is reported with the first requirement that fails, so with
      PAYMENT_MISMATCH when it belongs to the case in none of the three ways. */
  lemma {:induction false} MismatchIsFirstFailure(db: Db, u: Work, p: PaymentId, k: nat)
    requires p in u.payments && FailsFirst(Checks(db, u, p), k)
    ensures EvaluateMatch(db, u, p) == Mismatched(Checks(db, u, p)[k].reason)
    ensures !Evidence(db, u, p)
  {
    var checks := Checks(db, u, p);
    SameNaming(u, p);
    assert forall j | 0 <= j < k :: checks[j].passes;
    assert checks[0].passes <==> p.merchant == u.row.merchant;
    assert checks[1].passes <==> u.payments[p].customer == u.row.customer;
    assert checks[2].passes <==> !OtherOrder(u, p);
    assert checks[3].passes <==> BelongsTo(u, p);
    assert checks[4].passes <==> u.payments[p].currency == u.row.currency;
    assert checks[5].passes <==> u.payments[p].status.Captured? && u.payments[p].capturedAt.Some?;
    assert checks[6].passes <==> CapturedInTime(db, u.row, u.payments[p]);
    assert checks[7].passes <==> u.payments[p].amount > 0;
  }

  function Min(a: nat, b: nat): nat {
    if a < b then a else b
  }

  /** The checks of _evaluate, one after the other, amount to the evidence; a match credits
      the captured amount up to the amount at risk, and is partial exactly below it. */
  lemma {:induction false} MatchIffEvidence(db: Db, u: Work, p: PaymentId)
    requires p in u.payments
    ensures !EvaluateMatch(db, u, p).Mismatched? <==> Evidence(db, u, p)
    ensures var m, amount, atRisk := EvaluateMatch(db, u, p), u.payments[p].amount, u.row.amountAtRisk;
            && (m.PartialCapture? ==> 0 < m.captured == amount < atRisk)
            && (m.FullCapture? ==> m.credited == atRisk == Min(amount, atRisk))
  {
    SameNaming(u, p);
  }

  /** The case stands at VERIFYING when the verdict is applied: it waits there or just
      before, or policy lets its planned action through now. */
  predicate ReachesVerifying(u: Work, settings: PolicySettings, env: Env, now: Micros) {
    || u.row.status == Verifying
    || u.row.status == ActionCompleted
    || (Rank(u.row.status) <= Rank(PolicyCheck) && !Suspect(u.row, env) && !NeedsHuman(u.row, settings)
        && !PlanForbidden(u, PlannedFor(FailureOf(u.row, u.payments)), settings, env, now))
  }

  lemma {:induction false} VerifyingReached(u: Work, settings: PolicySettings, env: Env, now: Micros)
    ensures EnsureVerifying(u, settings, env, now).row.status == Verifying <==> ReachesVerifying(u, settings, env, now)
  {
    if Rank(u.row.status) <= Rank(PolicyCheck) {
      ProcessingEnds(u, settings, env, now);
    }
  }

  /** The payment that is verified: the one that is asked about, or the case's own. */
  function Target(u: Work, payment: Option<PaymentId>): Option<PaymentId> {
    match payment
    case Some(p) => if p in u.payments then payment else None
    case None => if u.row.payment.Some? && u.row.payment.value in u.payments then u.row.payment else None
  }

  /** Another case of the merchant has counted the payment. */
  ghost predicate CountedByOther(db: Db, u: Work, p: PaymentId) {
    exists j | 0 <= j < |db.cases| && j != u.id ::
      var c := db.cases[j]; c.merchant == u.row.merchant && c.verifiedPayment == Some(p) && c.amountRecovered > 0
  }

  /** The payment, or the event that reports it, has been counted before. */
  ghost predicate Counted(db: Db, u: Work, p: PaymentId, event: Option<EventKey>) {
    || (event.Some? && u.row.verifiedEvent == event)
    || u.row.verifiedPayment == Some(p)
    || CountedByOther(db, u, p)
  }

  lemma {:induction false} DuplicateIffCounted(db: Db, u: Work, p: PaymentId, event: Option<EventKey>)
    ensures Duplicate(db, u, p, event) ==
            if event.Some? && u.row.verifiedEvent == event then Some(DuplicateEvent)
            else if Counted(db, u, p, event) then Some(AlreadyCounted) else None
  {
    assert CountedElsewhere(db, u, p) <==> CountedByOther(db, u, p);
  }

  /** When a verification changes what is booked on a case. */
  ghost predicate Creditable(db: Db, u: Work, payment: Option<PaymentId>, event: Option<EventKey>,
                             settings: PolicySettings, env: Env, now: Micros)
  {
    var target := Target(u, payment);
    && u.row.status != Recovered && u.row.status != Stopped
    && target.Some?
    && !Counted(db, u, target.value, event)
    && Evidence(db, u, target.value)
    && (u.payments[target.value].amount < u.row.amountAtRisk || ReachesVerifying(u, settings, env, now))
  }

  predicate Books(w: Work, u: Work, p: PaymentId, event: Option<EventKey>)
    requires p in u.payments
  {
    && w.row.amountRecovered == Min(u.payments[p].amount, u.row.amountAtRisk)
    && w.row.verifiedPayment == Some(p) && w.row.verifiedEvent == event
    && w.creditedFrom == u.creditedFrom[p := u.payments[p].amount]
  }

  predicate BooksNothing(w: Work, u: Work) {
    SameMoney(u.row, w.row) && w.creditedFrom == u.creditedFrom
  }

  /** A verification credits the captured amount, up to the amount at risk, exactly when
      the case is creditable, and otherwise changes nothing that is booked. */
  lemma {:induction false} VerifyCredits(db: Db, u: Work, payment: Option<PaymentId>, event: Option<EventKey>,
                      settings: PolicySettings, env: Env, now: Micros)
    ensures var w := Verify(db, u, payment, event, settings, env, now);
            if Creditable(db, u, payment, event, settings, env, now)
            then Books(w, u, Target(u, payment).value, event)
            else BooksNothing(w, u)
  {
    var target := Target(u, payment);
    if target.Some? {
      DuplicateIffCounted(db, u, target.value, event);
    }
    if !Terminal(u.row.status) && target.Some? && Duplicate(db, u, target.value, event).None? {
      MatchIffEvidence(db, u, target.value);
      VerifyingReached(u, settings, env, now);
      EnsureVerifyingKeepsMoney(u, settings, env, now);
      ApplyBooks(db, u, EnsureVerifying(u, settings, env, now), target.value, event, now);
    }
  }

  /** Driving a case to VERIFYING leaves its money and the payments alone. */
  lemma {:induction false} EnsureVerifyingKeepsMoney(u: Work, settings: PolicySettings, env: Env, now: Micros)
    ensures var v := EnsureVerifying(u, settings, env, now);
            && v.payments == u.payments && v.creditedFrom == u.creditedFrom
            && SameIdentity(u.row, v.row) && SameMoney(u.row, v.row)
  {
    ProcessKeepsMoney(u, settings, env, now);
    var w := if u.row.status == ActionCompleted then u else ProcessLocked(u, settings, env, now);
    assert EnsureVerifying(u, settings, env, now)
           == if u.row.status == Verifying || u.row.status == Recovered then u
              else if w.row.status == ActionCompleted then w.Move(Verifying, now) else w;
  }

  lemma {:induction false} ProcessKeepsMoney(u: Work, settings: PolicySettings, env: Env, now: Micros)
    ensures var v := ProcessLocked(u, settings, env, now);
            && v.payments == u.payments && v.creditedFrom == u.creditedFrom
            && SameIdentity(u.row, v.row) && SameMoney(u.row, v.row)
  {
    WalkKeeps(u, now);
    var v := Walked(u, now);
    if v.row.status == PolicyCheck {
      var d := ProcessDecision(v, settings, env, now);
      ProcessDecidedKeeps(v, d, settings.approvalTtl, now);
      assert !SettledForProcessing(u.row.status) ==>
               ProcessLocked(u, settings, env, now) == ProcessDecided(v, d, settings.approvalTtl, now);
    }
  }

  lemma {:induction false} ApplyBooks(db: Db, u: Work, v: Work, p: PaymentId, event: Option<EventKey>, now: Micros)
    requires p in u.payments && v.payments == u.payments && v.creditedFrom == u.creditedFrom
    requires SameIdentity(u.row, v.row) && SameMoney(u.row, v.row)
    ensures var m := EvaluateMatch(db, u, p);
            var w := ApplyMatch(v, p, event, m, now);
            if m.PartialCapture? || (m.FullCapture? && v.row.status == Verifying) then Books(w, u, p, event)
                else BooksNothing(w, u)
  {
    MatchIffEvidence(db, u, p);
  }

  /** Past the policy check, and neither ready for a verdict nor about to be. */
  predicate Parked(s: CaseStatus) {
    Rank(s) > Rank(PolicyCheck) && s != ActionCompleted && s != Verifying
  }

  /** A report without a reason is a credit, except that a reported match of the whole amount
      is credited exactly when the case reaches VERIFYING; a report with a reason is none. */
  lemma {:induction false} ReportedMatchIsCreditedIff(db: Db, u: Work, payment: Option<PaymentId>, event: Option<EventKey>,
                                   settings: PolicySettings, env: Env, now: Micros)
    requires !Terminal(u.row.status)
    ensures var report, credit := Reported(db, u, payment, event), Creditable(db, u, payment, event, settings, env, now);
            && (report.reason.Some? ==> !credit && !report.matched)
            && (report.reason.None? && !report.matched ==> credit)
            && (report.matched ==> (credit <==> ReachesVerifying(u, settings, env, now)))
            && (credit ==> report.amount == Min(u.payments[Target(u, payment).value].amount, u.row.amountAtRisk))
  {
    var target := Target(u, payment);
    if target.Some? {
      DuplicateIffCounted(db, u, target.value, event);
      MatchIffEvidence(db, u, target.value);
    }
  }

  /** A case that has left the processing path, other than by completing its action, is never
      credited with a full capture: the match is reported, and nothing at all changes. */
  lemma {:induction false} FullCaptureNeedsVerifying(db: Db, u: Work, payment: Option<PaymentId>, event: Option<EventKey>,
                                  settings: PolicySettings, env: Env, now: Micros)
    requires Parked(u.row.status) && u.row.status != Executing && !Terminal(u.row.status)
    requires Target(u, payment).Some?
    requires var p := Target(u, payment).value;
             && Evidence(db, u, p) && !Counted(db, u, p, event) && u.payments[p].amount >= u.row.amountAtRisk
    ensures Reported(db, u, payment, event).matched
    ensures Verify(db, u, payment, event, settings, env, now) == u
  {
    DuplicateIffCounted(db, u, Target(u, payment).value, event);
    MatchIffEvidence(db, u, Target(u, payment).value);
    ParkedStays(u, settings, env, now);
  }

  /* ----- Verifying twice ----- */

  predicate SameLinks(a: seq<Action>, b: seq<Action>, caseId: nat, p: PaymentId) {
    LinkedByAction(a, caseId, p) <==> LinkedByAction(b, caseId, p)
  }

  /** A planned action links no payment to its case. */
  lemma {:induction false} PlanKeepsLinks(u: Work, kind: ActionKind, status: ActionStatus, request: Option<Request>,
          now: Micros, p: PaymentId)
    ensures SameLinks(u.tools.actions, Plan(u, kind, status, request, now).tools.actions, u.id, p)
  {
    var before, after := u.tools.actions, Plan(u, kind, status, request, now).tools.actions;
    if after != before {
      assert after[..|before|] == before;
      assert forall a :: a in after <==> a in before || a == after[|before|];
    }
  }

  lemma {:induction false} AskKeepsLinks(u: Work, n: nat, ttl: int, now: Micros, p: PaymentId)
    requires n < |u.tools.actions|
    ensures SameLinks(u.tools.actions, AskApproval(u, n, ttl, now).tools.actions, u.id, p)
  {
    var before, after := u.tools.actions, AskApproval(u, n, ttl, now).tools.actions;
    assert forall k | 0 <= k < |before| ::
        && before[k].caseId == after[k].caseId && before[k].reference == after[k].reference
        && before[k].newPayment == after[k].newPayment;
    if LinkedByAction(before, u.id, p) {
      var k :| 0 <= k < |before| && before[k].caseId == u.id
          && (before[k].reference == Some(p.reference) || before[k].newPayment == Some(p));
      assert after[k] in after;
    }
    if LinkedByAction(after, u.id, p) {
      var k :| 0 <= k < |after| && after[k].caseId == u.id && (after[k].reference == Some(p.reference)
          || after[k].newPayment == Some(p));
      assert before[k] in before;
    }
  }

  lemma {:induction false} RecordedKeepsLinks(u: Work, kind: ActionKind, d: Decision, ttl: int, now: Micros, p: PaymentId)
    ensures SameLinks(u.tools.actions, Recorded(u, kind, d, ttl, now).tools.actions, u.id, p)
  {
    var status := match d case Deny(_) => Blocked case Ask => ApprovalRequired case Go => Pending;
    var request := if d.Ask? then Some(PlannedRequest(kind, now)) else None;
    PlanKeepsLinks(u, kind, status, request, now, p);
    if d.Ask? {
      var v := Plan(u, kind, status, request, now);
      PlanKeepsCase(u, kind, status, request, now);
      AskKeepsLinks(v, PlannedAt(u, kind), ttl, now, p);
    }
  }

  lemma {:induction false} EnsureVerifyingKeepsLinks(u: Work, settings: PolicySettings, env: Env, now: Micros, p: PaymentId)
    ensures SameLinks(u.tools.actions, EnsureVerifying(u, settings, env, now).tools.actions, u.id, p)
  {
    WalkKeeps(u, now);
    var v := Walked(u, now);
    if v.row.status == PolicyCheck {
      var d, kind := ProcessDecision(v, settings, env, now), ChosenAction(v.row, v.payments);
      var w := Recorded(v, kind, d, settings.approvalTtl, now);
      RecordedKeepsCase(v, kind, d, settings.approvalTtl, now);
      RecordedKeepsLinks(v, kind, d, settings.approvalTtl, now, p);
      SteeredShape(w, d, now);
      assert !SettledForProcessing(u.row.status) ==> ProcessLocked(u, settings, env, now) == Steered(w, d, now);
    }
  }

  /** What the match and the duplicate check of one payment read. */
  ghost predicate SameQuestion(db: Db, u: Work, db': Db, u': Work, p: PaymentId) {
    && db'.window == db.window && db'.grace == db.grace
    && u'.id == u.id && u'.payments == u.payments && SameIdentity(u.row, u'.row)
    && SameLinks(u.tools.actions, u'.tools.actions, u.id, p)
  }

  lemma {:induction false} SameMatch(db: Db, u: Work, db': Db, u': Work, p: PaymentId)
    requires SameQuestion(db, u, db', u', p) && p in u.payments
    ensures EvaluateMatch(db', u', p) == EvaluateMatch(db, u, p)
  {
  }

  /** The second verification starts from what the first one left; no other case changed. */
  ghost predicate Resumes(db: Db, w: Work, db': Db, u': Work) {
    && db'.window == db.window && db'.grace == db.grace
    && |db'.cases| == |db.cases| && (forall j | 0 <= j < |db.cases| && j != w.id :: db'.cases[j] == db.cases[j])
    && u'.id == w.id && u'.row == w.row && u'.tools == w.tools && u'.payments == w.payments
  }

  lemma {:induction false} VerdictLeavesVerifying(v: Work, p: PaymentId, event: Option<EventKey>, m: Match, now: Micros)
    requires p in v.payments && Rank(v.row.status) > Rank(PolicyCheck) && v.row.status != ActionCompleted
    ensures Parked(ApplyMatch(v, p, event, m, now).row.status)
  {
  }

  lemma {:induction false} ParkedStays(u: Work, settings: PolicySettings, env: Env, now: Micros)
    requires Parked(u.row.status)
    ensures EnsureVerifying(u, settings, env, now) == u
  {
  }

  lemma {:induction false} SameDuplicate(db: Db, u: Work, db': Db, u': Work, p: PaymentId, event: Option<EventKey>)
    requires u'.id == u.id && SameIdentity(u.row, u'.row) && SameMoney(u.row, u'.row)
    requires |db'.cases| == |db.cases| && (forall j | 0 <= j < |db.cases| && j != u.id :: db'.cases[j] == db.cases[j])
    ensures Duplicate(db', u', p, event) == Duplicate(db, u, p, event)
  {
    assert CountedElsewhere(db', u', p) <==> CountedElsewhere(db, u, p);
  }

  /** The first verdict has credited nothing, and left the case where it will stay. */
  ghost predicate Undecided(db: Db, u: Work, w: Work, p: PaymentId)
    requires p in u.payments
  {
    && w.id == u.id && w.payments == u.payments && SameIdentity(u.row, w.row) && SameMoney(u.row, w.row)
    && SameLinks(u.tools.actions, w.tools.actions, u.id, p)
    && Parked(w.row.status)
    && !EvaluateMatch(db, u, p).PartialCapture?
  }

  /** What driving a case to VERIFYING leaves as it was for the verdict on payment p. */
  ghost predicate DrivenFor(u: Work, v: Work, p: PaymentId) {
    && v.id == u.id && v.payments == u.payments && v.creditedFrom == u.creditedFrom
    && SameIdentity(u.row, v.row) && SameMoney(u.row, v.row)
    && SameLinks(u.tools.actions, v.tools.actions, u.id, p)
    && Rank(v.row.status) > Rank(PolicyCheck) && v.row.status != ActionCompleted
  }

  lemma {:induction false} DrivingKeeps(u: Work, settings: PolicySettings, env: Env, now: Micros, p: PaymentId)
    requires Tracks(u.row, u)
    ensures DrivenFor(u, EnsureVerifying(u, settings, env, now), p)
  {
    EnsureVerifyingTracks(u.row, u, settings, env, now);
    EnsureVerifyingKeepsLinks(u, settings, env, now, p);
    TrackedIsDriven(u, EnsureVerifying(u, settings, env, now), p);
  }

  lemma {:induction false} TrackedIsDriven(u: Work, v: Work, p: PaymentId)
    requires Tracks(u.row, v) && DrivenFrom(u, v) && SameLinks(u.tools.actions, v.tools.actions, u.id, p)
    ensures DrivenFor(u, v, p)
  {
  }

  lemma {:induction false} VerdictDecides(db: Db, u: Work, v: Work, p: PaymentId, event: Option<EventKey>, now: Micros)
    requires p in u.payments && DrivenFor(u, v, p)
    ensures var w := ApplyMatch(v, p, event, EvaluateMatch(db, u, p), now);
            w.row.verifiedPayment == Some(p) || Undecided(db, u, w, p)
  {
    var m := EvaluateMatch(db, u, p);
    VerdictLeavesVerifying(v, p, event, m, now);
    ApplyBooks(db, u, v, p, event, now);
    ApplyKeepsRest(v, p, event, m, now);
  }

  lemma {:induction false} FirstVerdict(db: Db, u: Work, p: PaymentId, event: Option<EventKey>,
                     settings: PolicySettings, env: Env, now: Micros)
    requires Tracks(u.row, u) && !Terminal(u.row.status) && p in u.payments && Duplicate(db, u, p, event).None?
    ensures var w := VerifyPayment(db, u, p, event, settings, env, now);
            w.row.verifiedPayment == Some(p) || Undecided(db, u, w, p)
  {
    var v := EnsureVerifying(u, settings, env, now);
    DrivingKeeps(u, settings, env, now, p);
    VerdictDecides(db, u, v, p, event, now);
    assert VerifyPayment(db, u, p, event, settings, env, now) == ApplyMatch(v, p, event, EvaluateMatch(db, u, p), now);
  }

  /** The second verdict on a case that the first one has not credited. */
  lemma {:induction false} SecondVerdict(db: Db, u: Work, w: Work, db': Db, u': Work, p: PaymentId, event: Option<EventKey>,
                      settings: PolicySettings, env': Env, now': Micros)
    requires p in u.payments && Undecided(db, u, w, p) && Resumes(db, w, db', u')
    requires Duplicate(db, u, p, event).None?
    ensures p in u'.payments && SameLedger(u'.row, VerifyPayment(db', u', p, event, settings, env', now').row)
  {
    ParkedStays(u', settings, env', now');
    SameMatch(db, u, db', u', p);
    SameDuplicate(db, u, db', u', p, event);
  }

  /** Verifying a case twice, with the same payment and event, books and decides what
      verifying it once does, whatever policy says the second time. */
  lemma {:induction false} VerifyTwice(db: Db, u: Work, db': Db, u': Work, payment: Option<PaymentId>, event: Option<EventKey>,
                    settings: PolicySettings, env: Env, env': Env, now: Micros, now': Micros)
    requires Tracks(u.row, u)
    requires Resumes(db, Verify(db, u, payment, event, settings, env, now), db', u')
    ensures SameLedger(u'.row, Verify(db', u', payment, event, settings, env', now').row)
  {
    VerifyKeeps(db, u, payment, event, settings, env, now);
    var target := ResolvePayment(u, payment);
    assert ResolvePayment(u', payment) == target;
    if u.row.status != Stopped && target.Some? {
      var w := VerifyPayment(db, u, target.value, event, settings, env, now);
      assert w == Verify(db, u, payment, event, settings, env, now);
      PaymentTwice(db, u, db', u', target.value, event, settings, env, env', now, now');
    }
  }

  lemma {:induction false} PaymentTwice(db: Db, u: Work, db': Db, u': Work, p: PaymentId, event: Option<EventKey>,
                     settings: PolicySettings, env: Env, env': Env, now: Micros, now': Micros)
    requires Tracks(u.row, u) && u.row.status != Stopped && p in u.payments
    requires Resumes(db, VerifyPayment(db, u, p, event, settings, env, now), db', u') && u'.payments == u.payments
    ensures SameLedger(u'.row, VerifyPayment(db', u', p, event, settings, env', now').row)
  {
    if Duplicate(db, u, p, event).Some? {
      SameDuplicate(db, u, db', u', p, event);
    } else if !Terminal(u.row.status) {
      FirstVerdict(db, u, p, event, settings, env, now);
      var w := VerifyPayment(db, u, p, event, settings, env, now);
      if w.row.verifiedPayment != Some(p) {
        SecondVerdict(db, u, w, db', u', p, event, settings, env', now');
      }
    }
  }

  lemma {:induction false} ApplyKeepsRest(v: Work, p: PaymentId, event: Option<EventKey>, m: Match, now: Micros)
    requires p in v.payments
    ensures var w := ApplyMatch(v, p, event, m, now);
            w.id == v.id && w.tools == v.tools && w.payments == v.payments && SameIdentity(v.row, w.row)
  {
  }

  /** A verification changes the tool tables only by processing the case. */
  lemma {:induction false} VerifyTools(db: Db, u: Work, payment: Option<PaymentId>, event: Option<EventKey>,
                    settings: PolicySettings, env: Env, now: Micros)
    ensures var t := Verify(db, u, payment, event, settings, env, now).tools;
            t == u.tools || t == ProcessLocked(u, settings, env, now).tools
  {
    var target := ResolvePayment(u, payment);
    if u.row.status != Stopped && target.Some? {
      KeepsPayments(u, settings, env, now);
      var v := EnsureVerifying(u, settings, env, now);
      DrivenTools(u, settings, env, now);
      ApplyKeepsRest(v, target.value, event, EvaluateMatch(db, u, target.value), now);
    }
  }

  lemma {:induction false} DrivenTools(u: Work, settings: PolicySettings, env: Env, now: Micros)
    ensures var t := EnsureVerifying(u, settings, env, now).tools;
            t == u.tools || t == ProcessLocked(u, settings, env, now).tools
  {
  }
}
