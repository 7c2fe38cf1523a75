/** The deterministic policy engine: rule hits, the verdict they add up to, and
    what tightening a context can do to it. */
module Policy {
  import opened Domain

  const AUTOMATIC_ACTIONS := {RetryNow, RetryLater, SendPaymentLink, SendReminder, OfferDiscount}
  const COMMUNICATION_ACTIONS := {SendReminder, SendPaymentLink, OfferDiscount}
  const RETRY_ACTIONS := {RetryNow, RetryLater}

  datatype Proposal =
    | UnknownAction
    | Proposal(kind: ActionKind, percent: Option<real>, amount: Option<real>)

  datatype Context = Context(
    amountAtRisk: nat,
    settings: PolicySettings,
    now: Micros,
    retries: nat,
    communications: nat,
    discountSpent: nat,
    blocked: set<ActionKind>,
    optedOut: bool,
    suspicious: bool,
    sourceMismatch: bool,
    discountEligible: bool)

  datatype Rule =
    | ClosedActionEnum | HumanPath | LowValue | MediumValue | HighValue
    | BlockedAction | KillSwitch | SuspiciousSource | RetryLimit
    | DiscountMissing | DiscountPercent | DiscountEligibility | DiscountBudget | DiscountRecorded
    | OptOut | CommunicationFrequency | QuietHours

  datatype Hit = Hit(rule: Rule, deny: bool, approval: bool, risk: Risk)

  datatype Verdict = Verdict(allowed: bool, requiresApproval: bool, risk: Risk, rules: seq<Rule>)

  function RiskRank(r: Risk): nat {
    match r
    case Green => 0
    case Yellow => 1
    case Red => 2
  }

  function Worse(a: Risk, b: Risk): Risk {
    if RiskRank(b) > RiskRank(a) then b else a
  }

  /** A rule of the engine: it adds its hit to the evaluation when it applies. */
  datatype Clause = Clause(applies: bool, hit: Hit)

  function Fired(clauses: seq<Clause>): seq<Hit> {
    if clauses == [] then []
    else
      var last := clauses[|clauses| - 1];
      Fired(clauses[..|clauses| - 1]) + if last.applies then [last.hit] else []
  }

  function Denial(rule: Rule, risk: Risk): Hit {
    Hit(rule, true, false, risk)
  }

  function ValueRisk(c: Context, kind: ActionKind): Hit {
    if kind == Escalate || kind == DoNothing then Hit(HumanPath, false, false, Green)
    else if c.amountAtRisk as real > c.settings.highThreshold then Hit(HighValue, false, true, Red)
    else if c.amountAtRisk as real > c.settings.mediumThreshold then Hit(MediumValue, false, true, Yellow)
    else Hit(LowValue, false, false, Green)
  }

  /** The full hours since midnight. */
  function HourOf(t: Micros): (hour: nat)
    ensures hour < 24 && hour * MICROS_PER_HOUR <= t % MICROS_PER_DAY < (hour + 1) * MICROS_PER_HOUR
  {
    t % MICROS_PER_DAY / MICROS_PER_HOUR
  }

  predicate InQuietHours(hour: nat, start: int, end: int) {
    if start == end then false
    else if start < end then start <= hour < end
    else hour >= start || hour < end
  }

  /** The discount that the budget rule weighs: the stated amount, or the unrounded percentage. */
  function DiscountWeighed(c: Context, percent: real, amount: Option<real>): real {
    if amount.Some? then amount.value else c.amountAtRisk as real * percent / 100.0
  }

  function ValueClauses(c: Context, kind: ActionKind): seq<Clause> {
    [Clause(true, ValueRisk(c, kind))]
  }

  function RestrictionClauses(c: Context, kind: ActionKind): seq<Clause> {
    [ Clause(kind in c.blocked, Denial(BlockedAction, Red)),
      Clause(!c.settings.automatic && kind in AUTOMATIC_ACTIONS, Denial(KillSwitch, Red)),
      Clause((c.suspicious || c.sourceMismatch) && kind in AUTOMATIC_ACTIONS, Denial(SuspiciousSource, Red)),
      Clause(kind in RETRY_ACTIONS && c.retries >= c.settings.maxRetries, Denial(RetryLimit, Red)) ]
  }

  /** The discount rules; without a percentage the later ones are not consulted. */
  function DiscountClauses(c: Context, kind: ActionKind, stated: Option<real>, amount: Option<real>): seq<Clause> {
    var discount, percent := kind == OfferDiscount, if stated.Some? then stated.value else 0.0;
    var priced := discount && stated.Some?;
    [ Clause(discount && stated.None?, Denial(DiscountMissing, Red)),
      Clause(priced && percent > c.settings.maxDiscountPercent, Denial(DiscountPercent, Red)),
      Clause(priced && !c.discountEligible, Denial(DiscountEligibility, Red)),
      Clause(priced && OverBudget(c, percent, amount), Denial(DiscountBudget, Red)),
      Clause(priced && percent > 0.0, Hit(DiscountRecorded, false, false, Yellow)) ]
  }

  predicate OverBudget(c: Context, percent: real, amount: Option<real>) {
    c.discountSpent as real + DiscountWeighed(c, percent, amount) > c.settings.dailyBudget
  }

  function CommunicationClauses(c: Context, kind: ActionKind): seq<Clause> {
    var talks := kind in COMMUNICATION_ACTIONS;
    [ Clause(talks && c.optedOut, Denial(OptOut, Red)),
      Clause(talks && c.communications >= c.settings.maxCommunications, Denial(CommunicationFrequency, Yellow)),
      Clause(kind == SendReminder && InQuietHours(HourOf(c.now), c.settings.quietStart, c.settings.quietEnd),
             Denial(QuietHours, Yellow)) ]
  }

  /** Every rule of the engine, in the order in which it is consulted. */
  function Clauses(c: Context, p: Proposal): seq<Clause> {
    if p.UnknownAction? then [Clause(true, Denial(ClosedActionEnum, Red))]
    else
      ValueClauses(c, p.kind) + RestrictionClauses(c, p.kind)
      + DiscountClauses(c, p.kind, p.percent, p.amount) + CommunicationClauses(c, p.kind)
  }

  function Hits(c: Context, p: Proposal): seq<Hit> {
    Fired(Clauses(c, p))
  }

  /* ----- The verdict, declaratively ----- */

  predicate Denies(h: Hit) {
    h.deny
  }

  predicate Asks(h: Hit) {
    h.approval
  }

  predicate Denied(hits: seq<Hit>) {
    exists h <- hits :: Denies(h)
  }

  predicate NeedsApprovalHit(hits: seq<Hit>) {
    exists h <- hits :: Asks(h)
  }

  function WorstRisk(hits: seq<Hit>): Risk {
    if hits == [] then Green else Worse(WorstRisk(hits[..|hits| - 1]), hits[|hits| - 1].risk)
  }

  function RulesOf(hits: seq<Hit>): seq<Rule> {
    seq(|hits|, k requires 0 <= k < |hits| => hits[k].rule)
  }

  /** Any denial wins, a denied action never asks for approval, the worst risk counts. */
  function Judge(hits: seq<Hit>): Verdict {
    Verdict(!Denied(hits), NeedsApprovalHit(hits) && !Denied(hits), WorstRisk(hits), RulesOf(hits))
  }

  function Evaluate(c: Context, p: Proposal): Verdict {
    Judge(Hits(c, p))
  }

  /** evaluate_action: one pass over the hits. */
  method EvaluateAction(c: Context, p: Proposal) returns (v: Verdict)
    ensures v == Evaluate(c, p)
  {
    v := Accumulate(Hits(c, p));
  }

  method Accumulate(hits: seq<Hit>) returns (v: Verdict)
    ensures v == Judge(hits)
  {
    var allowed, approval, risk, rules := true, false, Green, [];
    for i := 0 to |hits|
      invariant allowed == !Denied(hits[..i])
      invariant approval == NeedsApprovalHit(hits[..i])
      invariant risk == WorstRisk(hits[..i])
      invariant rules == RulesOf(hits[..i])
    {
      var hit := hits[i];
      OneMoreHit(hits[..i], hit);
      assert hits[..i + 1] == hits[..i] + [hit];
      rules := rules + [hit.rule];
      if hit.deny {
        allowed := false;
      }
      if hit.approval {
        approval := true;
      }
      if RiskRank(hit.risk) > RiskRank(risk) {
        risk := hit.risk;
      }
    }
    assert hits[..|hits|] == hits;
    if !allowed {
      approval := false;
    }
    v := Verdict(allowed, approval && allowed, risk, rules);
  }

  lemma {:induction false} OneMoreHit(front: seq<Hit>, h: Hit)
    ensures Denied(front + [h]) <==> Denied(front) || h.deny
    ensures NeedsApprovalHit(front + [h]) <==> NeedsApprovalHit(front) || h.approval
    ensures WorstRisk(front + [h]) == Worse(WorstRisk(front), h.risk)
    ensures RulesOf(front + [h]) == RulesOf(front) + [h.rule]
  {
    var all := front + [h];
    assert all[..|all| - 1] == front && all[|all| - 1] == h;
    assert forall g :: g in all <==> g in front || g == h;
    assert (h.deny <==> Denies(h)) && (h.approval <==> Asks(h));
  }

  lemma {:induction false} WorstRiskBoundsAll(hits: seq<Hit>)
    ensures forall h <- hits :: RiskRank(h.risk) <= RiskRank(WorstRisk(hits))
    ensures hits == [] || WorstRisk(hits) == Green || exists h <- hits :: h.risk == WorstRisk(hits)
  {
    if hits != [] {
      WorstRiskBoundsAll(hits[..|hits| - 1]);
    }
  }

  /* ----- Reading the verdict off the rules ----- */

  predicate IsRed(h: Hit) {
    h.risk.Red?
  }

  predicate IsColoured(h: Hit) {
    !h.risk.Green?
  }

  /** No rule that applies has a hit that the test looks for. */
  ghost predicate Silent(clauses: seq<Clause>, test: Hit -> bool) {
    forall c <- clauses :: !(c.applies && test(c.hit))
  }

  lemma {:induction false} SilentTogether(a: seq<Clause>, b: seq<Clause>, test: Hit -> bool)
    ensures Silent(a + b, test) <==> Silent(a, test) && Silent(b, test)
  {
    assert forall c :: c in a + b <==> c in a || c in b;
  }

  lemma {:induction false} SilentFires(clauses: seq<Clause>, test: Hit -> bool)
    ensures (exists h <- Fired(clauses) :: test(h)) <==> !Silent(clauses, test)
  {
    if clauses != [] {
      var n := |clauses| - 1;
      var last := clauses[n];
      SilentFires(clauses[..n], test);
      SilentTogether(clauses[..n], [last], test);
      assert clauses == clauses[..n] + [last];
      assert forall h :: h in Fired(clauses) <==> h in Fired(clauses[..n]) || (last.applies && h == last.hit);
    }
  }

  /** The worst risk is some hit's own, unless it is GREEN. */
  lemma {:induction false} WorstRiskTells(hits: seq<Hit>)
    ensures WorstRisk(hits).Red? <==> exists h <- hits :: IsRed(h)
    ensures !WorstRisk(hits).Green? <==> exists h <- hits :: IsColoured(h)
  {
    WorstRiskBoundsAll(hits);
    if WorstRisk(hits) != Green {
      var h :| h in hits && h.risk == WorstRisk(hits);
      assert IsColoured(h) && (h.risk.Red? ==> IsRed(h));
    }
  }

  lemma {:induction false} DenialsFire(clauses: seq<Clause>)
    ensures Denied(Fired(clauses)) <==> !Silent(clauses, Denies)
  {
    SilentFires(clauses, Denies);
    var hits := Fired(clauses);
    if Denied(hits) {
      var h :| h in hits && Denies(h);
      assert exists x <- hits :: Denies(x);
    }
  }

  lemma {:induction false} ApprovalsFire(clauses: seq<Clause>)
    ensures NeedsApprovalHit(Fired(clauses)) <==> !Silent(clauses, Asks)
  {
    SilentFires(clauses, Asks);
    var hits := Fired(clauses);
    if NeedsApprovalHit(hits) {
      var h :| h in hits && Asks(h);
      assert exists x <- hits :: Asks(x);
    }
  }

  lemma {:induction false} RisksFire(clauses: seq<Clause>)
    ensures WorstRisk(Fired(clauses)).Red? <==> !Silent(clauses, IsRed)
    ensures WorstRisk(Fired(clauses)).Green? <==> Silent(clauses, IsColoured)
  {
    SilentFires(clauses, IsRed);
    SilentFires(clauses, IsColoured);
    WorstRiskTells(Fired(clauses));
  }

  /** The verdict, in terms of the rules that apply. */
  lemma {:induction false} VerdictBySilence(c: Context, p: Proposal)
    ensures var v, clauses := Evaluate(c, p), Clauses(c, p);
            && (v.allowed <==> Silent(clauses, Denies))
            && (v.requiresApproval <==> v.allowed && !Silent(clauses, Asks))
            && (v.risk.Red? <==> !Silent(clauses, IsRed))
            && (v.risk.Green? <==> Silent(clauses, IsColoured))
  {
    var clauses := Clauses(c, p);
    DenialsFire(clauses);
    ApprovalsFire(clauses);
    RisksFire(clauses);
    assert Evaluate(c, p) == Judge(Fired(clauses));
  }

  lemma {:induction false} SilentInParts(c: Context, p: Proposal, test: Hit -> bool)
    requires p.Proposal?
    ensures Silent(Clauses(c, p), test) <==>
              && Silent(ValueClauses(c, p.kind), test) && Silent(RestrictionClauses(c, p.kind), test)
              && Silent(DiscountClauses(c, p.kind, p.percent, p.amount), test) && Silent(CommunicationClauses(c, p.kind), test)
  {
    var value, restriction := ValueClauses(c, p.kind), RestrictionClauses(c, p.kind);
    var discount, communication := DiscountClauses(c, p.kind, p.percent, p.amount), CommunicationClauses(c, p.kind);
    SilentTogether(value, restriction, test);
    SilentTogether(value + restriction, discount, test);
    SilentTogether(value + restriction + discount, communication, test);
  }

  /* ----- What the rules mean ----- */

  predicate AboveThreshold(c: Context, kind: ActionKind, threshold: real) {
    !kind.Escalate? && !kind.DoNothing? && c.amountAtRisk as real > threshold
  }

  predicate IsHigh(c: Context, kind: ActionKind) {
    AboveThreshold(c, kind, c.settings.highThreshold)
  }

  predicate IsMedium(c: Context, kind: ActionKind) {
    AboveThreshold(c, kind, c.settings.mediumThreshold)
  }

  /** Everything but handing the case to a human or leaving it alone. */
  predicate Automatic(kind: ActionKind) {
    !kind.Escalate? && !kind.DoNothing?
  }

  predicate Retries(kind: ActionKind) {
    kind.RetryNow? || kind.RetryLater?
  }

  predicate Communicates(kind: ActionKind) {
    kind.SendReminder? || kind.SendPaymentLink? || kind.OfferDiscount?
  }

  /** The action is blocked, switched off, from a suspicious source, or a retry too many. */
  predicate Forbidden(c: Context, kind: ActionKind) {
    || kind in c.blocked
    || (Automatic(kind) && (!c.settings.automatic || c.suspicious || c.sourceMismatch))
    || (Retries(kind) && c.retries >= c.settings.maxRetries)
  }

  /** The discount has no percentage, or one that is too high, not due, or over the budget. */
  predicate DiscountRefused(c: Context, kind: ActionKind, percent: Option<real>, amount: Option<real>) {
    && kind == OfferDiscount
    && (percent.None? || percent.value > c.settings.maxDiscountPercent || !c.discountEligible
        || c.discountSpent as real + PriceOf(c, percent.value, amount) > c.settings.dailyBudget)
  }

  /** What a discount would cost: the stated amount, or the percentage of the amount at risk. */
  function PriceOf(c: Context, percent: real, amount: Option<real>): real {
    match amount
    case Some(stated) => stated
    case None => c.amountAtRisk as real * percent / 100.0
  }

  predicate DiscountGiven(kind: ActionKind, percent: Option<real>) {
    kind == OfferDiscount && percent.Some? && percent.value > 0.0
  }

  predicate Unwelcome(c: Context, kind: ActionKind) {
    Communicates(kind) && c.optedOut
  }

  /** Between the two hours of one day, or outside of them when the quiet time lasts over night. */
  predicate QuietAt(hour: int, start: int, end: int) {
    || (start < end && start <= hour < end)
    || (end < start && !(end <= hour < start))
  }

  /** The hour that is k hours after another one on the clock. */
  function HoursLater(hour: nat, k: nat): nat {
    (hour + k) % 24
  }

  /** On a clock: one of the hours that are counted off from the start, up to the end. */
  lemma {:induction false} QuietRoundTheClock(hour: nat, start: nat, end: nat)
    requires hour < 24 && start < 24 && end < 24
    ensures QuietAt(hour, start, end) <==> exists k :: 0 <= k < (end - start) % 24 && HoursLater(start, k) == hour
  {
    var k := if hour >= start then hour - start else hour + 24 - start;
    assert HoursLater(start, k) == hour;
    forall j: nat | j < 24 && HoursLater(start, j) == hour ensures j == k {
    }
    assert (end - start) % 24 == if end >= start then end - start else end + 24 - start;
  }

  lemma {:induction false} QuietMeans(hour: nat, start: int, end: int)
    ensures InQuietHours(hour, start, end) <==> QuietAt(hour, start, end)
  {
  }

  /** Too many communications lately, or a reminder in the quiet hours. */
  predicate Untimely(c: Context, kind: ActionKind) {
    || (Communicates(kind) && c.communications >= c.settings.maxCommunications)
    || (kind.SendReminder? && QuietAt(HourOf(c.now), c.settings.quietStart, c.settings.quietEnd))
  }

  lemma {:induction false} ValueMeans(c: Context, kind: ActionKind)
    ensures var clauses := ValueClauses(c, kind);
            && Silent(clauses, Denies)
            && (Silent(clauses, Asks) <==> !IsHigh(c, kind) && !IsMedium(c, kind))
            && (Silent(clauses, IsRed) <==> !IsHigh(c, kind))
            && (Silent(clauses, IsColoured) <==> !IsHigh(c, kind) && !IsMedium(c, kind))
  {
    assert ValueClauses(c, kind)[0] == Clause(true, ValueRisk(c, kind));
  }

  lemma {:induction false} RestrictionsMean(c: Context, kind: ActionKind)
    ensures var clauses := RestrictionClauses(c, kind);
            && Silent(clauses, Asks)
            && (Silent(clauses, Denies) <==> !Forbidden(c, kind))
            && (Silent(clauses, IsRed) <==> !Forbidden(c, kind))
            && (Silent(clauses, IsColoured) <==> !Forbidden(c, kind))
  {
    var clauses := RestrictionClauses(c, kind);
    assert clauses[0].applies || clauses[1].applies || clauses[2].applies || clauses[3].applies <==> Forbidden(c, kind);
  }

  lemma {:induction false} DiscountsMean(c: Context, kind: ActionKind, percent: Option<real>, amount: Option<real>)
    ensures var clauses, refused := DiscountClauses(c, kind, percent, amount), DiscountRefused(c, kind, percent, amount);
            && Silent(clauses, Asks)
            && (Silent(clauses, Denies) <==> !refused)
            && (Silent(clauses, IsRed) <==> !refused)
            && (Silent(clauses, IsColoured) <==> !refused && !DiscountGiven(kind, percent))
  {
    var clauses := DiscountClauses(c, kind, percent, amount);
    assert clauses[0].applies || clauses[1].applies || clauses[2].applies || clauses[3].applies
           <==> DiscountRefused(c, kind, percent, amount);
    assert clauses[4].applies <==> DiscountGiven(kind, percent);
  }

  lemma {:induction false} CommunicationsMean(c: Context, kind: ActionKind)
    ensures var clauses := CommunicationClauses(c, kind);
            && Silent(clauses, Asks)
            && (Silent(clauses, Denies) <==> !Unwelcome(c, kind) && !Untimely(c, kind))
            && (Silent(clauses, IsRed) <==> !Unwelcome(c, kind))
            && (Silent(clauses, IsColoured) <==> !Unwelcome(c, kind) && !Untimely(c, kind))
  {
    var clauses := CommunicationClauses(c, kind);
    QuietMeans(HourOf(c.now), c.settings.quietStart, c.settings.quietEnd);
    assert clauses[0].applies <==> Unwelcome(c, kind);
    assert clauses[1].applies || clauses[2].applies <==> Untimely(c, kind);
  }

  /** None of the restrictions bites. */
  predicate Unrestricted(c: Context, p: Proposal) {
    && p.Proposal?
    && !Forbidden(c, p.kind)
    && !DiscountRefused(c, p.kind, p.percent, p.amount)
    && !Unwelcome(c, p.kind) && !Untimely(c, p.kind)
  }

  /** An action is allowed exactly when no restriction bites; it asks for approval exactly
      when, besides, the amount is above the medium or high threshold. */
  lemma {:induction false} AllowedIff(c: Context, p: Proposal)
    ensures Evaluate(c, p).allowed <==> Unrestricted(c, p)
    ensures Evaluate(c, p).requiresApproval <==> Unrestricted(c, p) && (IsHigh(c, p.kind) || IsMedium(c, p.kind))
  {
    VerdictBySilence(c, p);
    if p.Proposal? {
      SilentInParts(c, p, Denies);
      SilentInParts(c, p, Asks);
      PartsMean(c, p);
    } else {
      assert Clauses(c, p)[0] == Clause(true, Denial(ClosedActionEnum, Red));
    }
  }

  lemma {:induction false} PartsMean(c: Context, p: Proposal)
    requires p.Proposal?
    ensures Silent(ValueClauses(c, p.kind), Denies)
    ensures Silent(RestrictionClauses(c, p.kind), Asks) && Silent(CommunicationClauses(c, p.kind), Asks)
    ensures Silent(DiscountClauses(c, p.kind, p.percent, p.amount), Asks)
    ensures Silent(ValueClauses(c, p.kind), Asks) <==> !IsHigh(c, p.kind) && !IsMedium(c, p.kind)
    ensures Silent(RestrictionClauses(c, p.kind), Denies) <==> !Forbidden(c, p.kind)
    ensures Silent(DiscountClauses(c, p.kind, p.percent, p.amount), Denies) <==> !DiscountRefused(c, p.kind, p.percent, p.amount)
    ensures Silent(CommunicationClauses(c, p.kind), Denies) <==> !Unwelcome(c, p.kind) && !Untimely(c, p.kind)
  {
    ValueMeans(c, p.kind);
    RestrictionsMean(c, p.kind);
    DiscountsMean(c, p.kind, p.percent, p.amount);
    CommunicationsMean(c, p.kind);
  }

  /** Something forbids the action outright, or its amount is high. */
  predicate RedFlag(c: Context, p: Proposal) {
    || p.UnknownAction?
    || IsHigh(c, p.kind) || Forbidden(c, p.kind) || DiscountRefused(c, p.kind, p.percent, p.amount) || Unwelcome(c, p.kind)
  }

  /** The amount is above the medium threshold, a discount is given, or it is not the time. */
  predicate YellowFlag(c: Context, p: Proposal) {
    p.Proposal? && (IsMedium(c, p.kind) || DiscountGiven(p.kind, p.percent) || Untimely(c, p.kind))
  }

  /** The risk is RED exactly when a red flag is up, and GREEN exactly when no flag is. */
  lemma {:induction false} RiskIff(c: Context, p: Proposal)
    ensures Evaluate(c, p).risk.Red? <==> RedFlag(c, p)
    ensures Evaluate(c, p).risk.Green? <==> !RedFlag(c, p) && !YellowFlag(c, p)
  {
    VerdictBySilence(c, p);
    if p.Proposal? {
      SilentInParts(c, p, IsRed);
      SilentInParts(c, p, IsColoured);
      ValueMeans(c, p.kind);
      RestrictionsMean(c, p.kind);
      DiscountsMean(c, p.kind, p.percent, p.amount);
      CommunicationsMean(c, p.kind);
    } else {
      assert Clauses(c, p)[0] == Clause(true, Denial(ClosedActionEnum, Red));
    }
  }

  /* ----- Which rules are named ----- */

  function IsRule(rule: Rule): Hit -> bool {
    (h: Hit) => h.rule == rule
  }

  /** When each rule of the engine applies. */
  predicate Applies(c: Context, p: Proposal, rule: Rule) {
    if p.UnknownAction? then rule.ClosedActionEnum?
    else
      match rule
      case ClosedActionEnum => false
      case HumanPath => p.kind.Escalate? || p.kind.DoNothing?
      case HighValue => IsHigh(c, p.kind)
      case MediumValue => IsMedium(c, p.kind) && !IsHigh(c, p.kind)
      case LowValue => !p.kind.Escalate? && !p.kind.DoNothing? && !IsMedium(c, p.kind) && !IsHigh(c, p.kind)
      case BlockedAction => p.kind in c.blocked
      case KillSwitch => !c.settings.automatic && Automatic(p.kind)
      case SuspiciousSource => (c.suspicious || c.sourceMismatch) && Automatic(p.kind)
      case RetryLimit => Retries(p.kind) && c.retries >= c.settings.maxRetries
      case DiscountMissing => p.kind.OfferDiscount? && p.percent.None?
      case DiscountPercent => p.kind.OfferDiscount? && p.percent.Some? && p.percent.value > c.settings.maxDiscountPercent
      case DiscountEligibility => p.kind.OfferDiscount? && p.percent.Some? && !c.discountEligible
      case DiscountBudget => p.kind.OfferDiscount? && p.percent.Some?
        && c.discountSpent as real + PriceOf(c, p.percent.value, p.amount) > c.settings.dailyBudget
      case DiscountRecorded => DiscountGiven(p.kind, p.percent)
      case OptOut => Unwelcome(c, p.kind)
      case CommunicationFrequency =>
        Communicates(p.kind) && c.communications >= c.settings.maxCommunications
      case QuietHours => p.kind.SendReminder? && QuietAt(HourOf(c.now), c.settings.quietStart, c.settings.quietEnd)
  }

  lemma {:induction false} RulesAreNamed(hits: seq<Hit>, rule: Rule)
    ensures rule in RulesOf(hits) <==> exists h <- hits :: IsRule(rule)(h)
  {
    if rule in RulesOf(hits) {
      var k :| 0 <= k < |hits| && RulesOf(hits)[k] == rule;
      assert hits[k] in hits && IsRule(rule)(hits[k]);
    }
    if exists h <- hits :: IsRule(rule)(h) {
      var h :| h in hits && IsRule(rule)(h);
      var k :| 0 <= k < |hits| && hits[k] == h;
      assert RulesOf(hits)[k] == rule;
    }
  }

  lemma {:induction false} ValueNames(c: Context, p: Proposal, rule: Rule)
    requires p.Proposal?
    ensures !Silent(ValueClauses(c, p.kind), IsRule(rule)) <==>
              (rule.HumanPath? || rule.LowValue? || rule.MediumValue? || rule.HighValue?) && Applies(c, p, rule)
  {
    assert ValueClauses(c, p.kind)[0] == Clause(true, ValueRisk(c, p.kind));
  }

  lemma {:induction false} RestrictionsName(c: Context, p: Proposal, rule: Rule)
    requires p.Proposal?
    ensures !Silent(RestrictionClauses(c, p.kind), IsRule(rule)) <==>
              (rule.BlockedAction? || rule.KillSwitch? || rule.SuspiciousSource? || rule.RetryLimit?) && Applies(c, p, rule)
  {
    var clauses := RestrictionClauses(c, p.kind);
    assert clauses[0].hit.rule == BlockedAction && clauses[1].hit.rule == KillSwitch;
    assert clauses[2].hit.rule == SuspiciousSource && clauses[3].hit.rule == RetryLimit;
    SilentByIndex(clauses, IsRule(rule));
  }

  lemma {:induction false} DiscountsName(c: Context, p: Proposal, rule: Rule)
    requires p.Proposal?
    ensures !Silent(DiscountClauses(c, p.kind, p.percent, p.amount), IsRule(rule)) <==>
              (rule.DiscountMissing? || rule.DiscountPercent? || rule.DiscountEligibility? || rule.DiscountBudget?
               || rule.DiscountRecorded?) && Applies(c, p, rule)
  {
    var clauses := DiscountClauses(c, p.kind, p.percent, p.amount);
    assert clauses[0].hit.rule == DiscountMissing && clauses[1].hit.rule == DiscountPercent;
    assert clauses[2].hit.rule == DiscountEligibility && clauses[3].hit.rule == DiscountBudget;
    assert clauses[4].hit.rule == DiscountRecorded;
    SilentByIndex(clauses, IsRule(rule));
  }

  lemma {:induction false} CommunicationsName(c: Context, p: Proposal, rule: Rule)
    requires p.Proposal?
    ensures !Silent(CommunicationClauses(c, p.kind), IsRule(rule)) <==>
              (rule.OptOut? || rule.CommunicationFrequency? || rule.QuietHours?) && Applies(c, p, rule)
  {
    var clauses := CommunicationClauses(c, p.kind);
    assert clauses[0].hit.rule == OptOut && clauses[1].hit.rule == CommunicationFrequency;
    assert clauses[2].hit.rule == QuietHours;
    SilentByIndex(clauses, IsRule(rule));
  }

  lemma {:induction false} SilentByIndex(clauses: seq<Clause>, test: Hit -> bool)
    ensures Silent(clauses, test) <==> forall k | 0 <= k < |clauses| :: !(clauses[k].applies && test(clauses[k].hit))
  {
  }

  lemma {:induction false} NamedIffFired(c: Context, p: Proposal, rule: Rule)
    ensures rule in Evaluate(c, p).rules <==> !Silent(Clauses(c, p), IsRule(rule))
  {
    RulesAreNamed(Fired(Clauses(c, p)), rule);
    SilentFires(Clauses(c, p), IsRule(rule));
    assert Evaluate(c, p) == Judge(Fired(Clauses(c, p)));
  }

  lemma {:induction false} FiredIffApplies(c: Context, p: Proposal, rule: Rule)
    requires p.Proposal?
    ensures !Silent(Clauses(c, p), IsRule(rule)) <==> Applies(c, p, rule)
  {
    SilentInParts(c, p, IsRule(rule));
    ValueNames(c, p, rule);
    RestrictionsName(c, p, rule);
    DiscountsName(c, p, rule);
    CommunicationsName(c, p, rule);
  }

  /** The verdict names exactly the rules that apply. */
  lemma {:induction false} RulesIff(c: Context, p: Proposal, rule: Rule)
    ensures rule in Evaluate(c, p).rules <==> Applies(c, p, rule)
  {
    NamedIffFired(c, p, rule);
    if p.Proposal? {
      FiredIffApplies(c, p, rule);
    } else {
      assert Clauses(c, p)[0] == Clause(true, Denial(ClosedActionEnum, Red));
    }
  }

  /** A reminder is denied by quiet hours exactly in the hours that the clock strikes from the
      start of the quiet time up to its end, over midnight if need be; by default from 21 to 8. */
  lemma {:induction false} RemindersAtQuietHours(c: Context, p: Proposal)
    requires p.Proposal? && p.kind.SendReminder?
    requires 0 <= c.settings.quietStart < 24 && 0 <= c.settings.quietEnd < 24
    ensures QuietHours in Evaluate(c, p).rules <==>
              exists k :: 0 <= k < (c.settings.quietEnd - c.settings.quietStart) % 24
                          && HoursLater(c.settings.quietStart, k) == HourOf(c.now)
    ensures QuietHours in Evaluate(c, p).rules ==> !Evaluate(c, p).allowed
  {
    RulesIff(c, p, QuietHours);
    AllowedIff(c, p);
    QuietRoundTheClock(HourOf(c.now), c.settings.quietStart, c.settings.quietEnd);
  }

  /* ----- Tightening ----- */

  /** `t` restricts at least as much as `l`, for the same case at the same moment. */
  ghost predicate Tightens(l: Context, t: Context) {
    && t.amountAtRisk == l.amountAtRisk && t.now == l.now
    && t.settings.highThreshold <= l.settings.highThreshold
    && t.settings.mediumThreshold <= l.settings.mediumThreshold
    && t.settings.maxRetries <= l.settings.maxRetries
    && t.settings.maxDiscountPercent <= l.settings.maxDiscountPercent
    && t.settings.dailyBudget <= l.settings.dailyBudget
    && t.settings.maxCommunications <= l.settings.maxCommunications
    && (t.settings.automatic ==> l.settings.automatic)
    && (QuietAt(HourOf(l.now), l.settings.quietStart, l.settings.quietEnd) ==>
          QuietAt(HourOf(t.now), t.settings.quietStart, t.settings.quietEnd))
    && l.retries <= t.retries
    && l.communications <= t.communications
    && l.discountSpent <= t.discountSpent
    && l.blocked <= t.blocked
    && (l.optedOut ==> t.optedOut)
    && (l.suspicious ==> t.suspicious)
    && (l.sourceMismatch ==> t.sourceMismatch)
    && (t.discountEligible ==> l.discountEligible)
  }

  predicate Outweighs(g: Hit, h: Hit) {
    (h.deny ==> g.deny) && (h.approval ==> g.approval) && RiskRank(h.risk) <= RiskRank(g.risk)
  }

  /** Rule by rule, `b` fires whenever `a` does, with a hit that weighs as much or more. */
  ghost predicate Dominated(a: seq<Clause>, b: seq<Clause>) {
    |a| == |b| && forall k :: 0 <= k < |a| && a[k].applies ==> b[k].applies && Outweighs(b[k].hit, a[k].hit)
  }

  lemma {:induction false} DominatedTogether(a: seq<Clause>, b: seq<Clause>, c: seq<Clause>, d: seq<Clause>)
    requires Dominated(a, b) && Dominated(c, d)
    ensures Dominated(a + c, b + d)
  {
  }

  lemma {:induction false} DominatedIsSilent(a: seq<Clause>, b: seq<Clause>, test: Hit -> bool)
    requires Dominated(a, b) && Silent(b, test)
    requires forall g, h :: Outweighs(g, h) && test(h) ==> test(g)
    ensures Silent(a, test)
  {
    forall c | c in a && c.applies ensures !test(c.hit) {
      var k :| 0 <= k < |a| && a[k] == c;
      assert b[k] in b && Outweighs(b[k].hit, a[k].hit);
    }
  }

  lemma {:induction false} RestrictionsTighten(l: Context, t: Context, kind: ActionKind)
    requires Tightens(l, t)
    ensures Dominated(ValueClauses(l, kind), ValueClauses(t, kind))
    ensures Dominated(RestrictionClauses(l, kind), RestrictionClauses(t, kind))
    ensures Dominated(CommunicationClauses(l, kind), CommunicationClauses(t, kind))
  {
  }

  lemma {:induction false} DiscountsTighten(l: Context, t: Context, kind: ActionKind, percent: Option<real>, amount: Option<real>)
    requires Tightens(l, t)
    ensures Dominated(DiscountClauses(l, kind, percent, amount), DiscountClauses(t, kind, percent, amount))
  {
  }

  lemma {:induction false} RulesTighten(l: Context, t: Context, p: Proposal)
    requires Tightens(l, t)
    ensures Dominated(Clauses(l, p), Clauses(t, p))
  {
    if p.Proposal? {
      RestrictionsTighten(l, t, p.kind);
      DiscountsTighten(l, t, p.kind, p.percent, p.amount);
      var discounts := DiscountClauses(l, p.kind, p.percent, p.amount);
      var discounts' := DiscountClauses(t, p.kind, p.percent, p.amount);
      var value, value' := ValueClauses(l, p.kind), ValueClauses(t, p.kind);
      var limits, limits' := RestrictionClauses(l, p.kind), RestrictionClauses(t, p.kind);
      var talk, talk' := CommunicationClauses(l, p.kind), CommunicationClauses(t, p.kind);
      DominatedTogether(value, value', limits, limits');
      DominatedTogether(value + limits, value' + limits', discounts, discounts');
      DominatedTogether(value + limits + discounts, value' + limits' + discounts', talk, talk');
    }
  }

  /** Tightening a context never allows what was denied, never lowers the risk, and
      never drops a required approval of an action that stays allowed. */
  lemma {:induction false} TighteningNeverLoosens(l: Context, t: Context, p: Proposal)
    requires Tightens(l, t)
    ensures Evaluate(t, p).allowed ==> Evaluate(l, p).allowed
    ensures RiskRank(Evaluate(l, p).risk) <= RiskRank(Evaluate(t, p).risk)
    ensures Evaluate(l, p).requiresApproval && Evaluate(t, p).allowed ==> Evaluate(t, p).requiresApproval
  {
    RulesTighten(l, t, p);
    VerdictBySilence(l, p);
    VerdictBySilence(t, p);
    NotLooser(Clauses(l, p), Clauses(t, p));
  }

  lemma {:induction false} NotLooser(a: seq<Clause>, b: seq<Clause>)
    requires Dominated(a, b)
    ensures Silent(b, Denies) ==> Silent(a, Denies)
    ensures Silent(b, Asks) ==> Silent(a, Asks)
    ensures Silent(b, IsRed) ==> Silent(a, IsRed)
    ensures Silent(b, IsColoured) ==> Silent(a, IsColoured)
  {
    if Silent(b, Denies) {
      DominatedIsSilent(a, b, Denies);
    }
    if Silent(b, Asks) {
      DominatedIsSilent(a, b, Asks);
    }
    if Silent(b, IsRed) {
      DominatedIsSilent(a, b, IsRed);
    }
    if Silent(b, IsColoured) {
      DominatedIsSilent(a, b, IsColoured);
    }
  }
}
