/** The simulator's recovery probabilities, branch by branch, in exact arithmetic. */
module Simulator {
  import opened Domain
  import opened Money

  /** None stands for a missing failure reason. */
  type Reason = Option<FailureCode>

  datatype Context = Context(
    reason: Reason,
    attempt: int,
    priorFailures: int,
    successRate: real,
    recoveryRate: real,
    communications: int,
    discountUsage: real,
    cartAge: Option<real>,
    lifetimeValue: real,
    amount: nat,
    hour: int,
    abandoned: bool)

  function Min(a: real, b: real): real {
    if b < a then b else a
  }

  function Max(a: real, b: real): real {
    if b > a then b else a
  }

  function Unit(x: real): (r: real)
    ensures 0.0 <= r <= 1.0
  {
    Min(Max(x, 0.0), 1.0)
  }

  function AtLeast(n: int, low: int): int {
    if n < low then low else n
  }

  /** Rounded to four decimals, half to even. */
  function Quantized(x: real): real {
    RoundHalfEven(x * 10000.0) as real / 10000.0
  }

  lemma QuantizedIsMonotone(x: real, y: real)
    requires x <= y
    ensures Quantized(x) <= Quantized(y)
  {
    RoundingIsMonotone(x * 10000.0, y * 10000.0);
  }

  /** _clip_prob. */
  function Clip(x: real): (p: real)
    ensures 0.0 <= p <= 0.95
  {
    if x < 0.0 then 0.0
    else if x > 0.95 then 0.95
    else
      QuantizedIsMonotone(0.0, x);
      QuantizedIsMonotone(x, 0.95);
      assert Quantized(0.0) == 0.0 && Quantized(0.95) == 0.95;
      Quantized(x)
  }

  lemma ClipIsMonotone(x: real, y: real)
    requires x <= y
    ensures Clip(x) <= Clip(y)
  {
    QuantizedIsMonotone(x, y);
    if 0.0 <= x <= 0.95 {
      assert Clip(x) <= 0.95;
    }
  }

  predicate NeverCaptures(reason: Reason) {
    reason == Some(CustomerCancelled) || reason == Some(MandateFailure)
  }

  /** capture_probability. */
  function CaptureProbability(reason: Reason, attemptNumber: int, priorFailures: int): (p: real)
    ensures 0.0 <= p <= 0.8
  {
    var attempt, failures := AtLeast(attemptNumber, 1) as real, AtLeast(priorFailures, 0) as real;
    if NeverCaptures(reason) then 0.0
    else if reason == Some(ExpiredCard) then 0.02
    else if reason == Some(TemporaryBankError) then Min(Max(0.25 + 0.15 * (attempt - 1.0) - 0.03 * failures, 0.05), 0.8)
    else if reason == Some(NetworkTimeout) then Min(0.2 + 0.15 * (attempt - 1.0), 0.75)
    else if reason == Some(InsufficientFunds) then Min(Max(0.08 + 0.04 * (attempt - 1.0) - 0.02 * failures, 0.02), 0.35)
    else if reason == Some(Declined) then Min(0.12 + 0.05 * (attempt - 1.0), 0.4)
    else Min(0.15 + 0.05 * attempt, 0.5)
  }

  /** A later attempt is never less likely to capture, and earlier failures never help. */
  lemma CaptureImprovesWithAttempts(reason: Reason, early: int, late: int, failures: int, fewer: int)
    requires early <= late && fewer <= failures
    ensures CaptureProbability(reason, early, failures) <= CaptureProbability(reason, late, fewer)
  {
  }

  /* ----- The terms of an intervention ----- */

  function Attempt(c: Context): int {
    AtLeast(c.attempt, 1)
  }

  function RetryBase(c: Context): real {
    CaptureProbability(c.reason, Attempt(c), c.priorFailures)
  }

  function Success(c: Context): real {
    Unit(c.successRate)
  }

  function Loyalty(c: Context): real {
    0.12 * Success(c) + 0.08 * Unit(c.recoveryRate)
  }

  function Fatigue(c: Context): (f: real)
    ensures 0.0 <= f <= 1.0
  {
    Min(1.0, AtLeast(c.communications, 0) as real / 8.0)
  }

  function CartPenalty(c: Context): (p: real)
    ensures 0.0 <= p <= 0.28
  {
    if c.cartAge.None? then 0.0 else Min(0.28, Max(c.cartAge.value, 0.0) / 720.0 * 0.28)
  }

  function AttemptPenalty(c: Context): (p: real)
    ensures 0.0 <= p
  {
    0.045 * (Attempt(c) - 1) as real
  }

  function HighAmountPenalty(c: Context): real {
    var ratio := if c.lifetimeValue > 0.0 then Min(c.amount as real / c.lifetimeValue, 5.0) else 0.0;
    0.04 * Max(ratio - 1.0, 0.0)
  }

  predicate QuietHour(hour: int) {
    hour >= 21 || hour < 8
  }

  function Bonus(applies: bool, x: real): real {
    if applies then x else 0.0
  }

  /* ----- One probability per action ----- */

  function HardFailure(c: Context, a: ActionKind): real
    requires NeverCaptures(c.reason)
  {
    if a.Escalate? then Clip(0.04 + 0.04 * Success(c))
    else if a.SendPaymentLink? && c.reason == Some(MandateFailure) then Clip(0.03 + 0.05 * Success(c))
    else 0.01
  }

  function RetryNowChance(c: Context): real {
    var p := RetryBase(c) + Loyalty(c) - CartPenalty(c) - AttemptPenalty(c) - HighAmountPenalty(c);
    if c.reason == Some(InsufficientFunds) then p * 0.62
    else if c.reason == Some(TemporaryBankError) then Min(0.9, p + 0.1)
    else if c.reason == Some(NetworkTimeout) then Min(0.85, p + 0.06)
    else if c.reason == Some(ExpiredCard) then Min(p, 0.06)
    else p
  }

  function RetryLaterChance(c: Context): real {
    var p := RetryBase(c) + Loyalty(c) - CartPenalty(c) - 0.02 * AttemptPenalty(c) - HighAmountPenalty(c);
    if c.reason == Some(InsufficientFunds) then Min(0.58, RetryBase(c) * 2.15 + Loyalty(c) - CartPenalty(c))
    else if c.reason == Some(TemporaryBankError) then RetryBase(c) + Loyalty(c) - 0.03
    else if c.reason == Some(ExpiredCard) then Min(p, 0.07)
    else p
  }

  function LinkChance(c: Context): real {
    Bonus(c.abandoned, 0.06) +
    if c.reason == Some(ExpiredCard) then 0.42 + 0.22 * Success(c) - CartPenalty(c)
    else if c.reason == Some(Declined) then 0.22 + Loyalty(c)
    else if c.reason == Some(TemporaryBankError) then RetryBase(c) * 0.55 + 0.08
    else 0.18 + Loyalty(c) + 0.08 * Success(c) - CartPenalty(c) - AttemptPenalty(c)
  }

  function ReminderChance(c: Context): real {
    var p := 0.14 + 0.2 * Success(c) - 0.22 * Fatigue(c) - CartPenalty(c) - AttemptPenalty(c)
             - Bonus(QuietHour(c.hour), 0.05) + Bonus(c.abandoned, 0.04);
    if c.reason == Some(ExpiredCard) then p * 0.45 else p
  }

  /** A discount wears off with use. */
  function Novelty(c: Context): (novelty: real)
    ensures 0.3 <= novelty <= 1.0
  {
    1.0 - 0.7 * Unit(c.discountUsage)
  }

  function DiscountTerms(c: Context): real {
    0.2 + 0.16 * Success(c) + 0.08 * Novelty(c) - CartPenalty(c) - HighAmountPenalty(c)
    + Bonus(c.reason == Some(InsufficientFunds), 0.06) + Bonus(c.abandoned, 0.05)
  }

  function DiscountChance(c: Context): real {
    Worn(DiscountTerms(c), Novelty(c))
  }

  function Worn(chance: real, novelty: real): real {
    chance * novelty
  }

  function OrganicChance(c: Context): real {
    0.025 + 0.06 * Success(c) - 0.015 * Fatigue(c) - Bonus(c.abandoned, CartPenalty(c) * 0.5)
  }

  function AssistedChance(c: Context): real {
    0.08 + 0.12 * Success(c) - 0.03 * Fatigue(c)
  }

  /** intervention_recovery_probability. No action is certain to recover. */
  function Probability(c: Context, a: ActionKind): (p: real)
    ensures 0.0 <= p <= 0.95
  {
    if NeverCaptures(c.reason) then HardFailure(c, a)
    else
      match a
      case RetryNow => Clip(RetryNowChance(c))
      case RetryLater => Clip(RetryLaterChance(c))
      case SendPaymentLink => Clip(LinkChance(c))
      case SendReminder => Clip(ReminderChance(c))
      case OfferDiscount => Clip(DiscountChance(c))
      case Escalate => Clip(AssistedChance(c))
      case DoNothing => Clip(OrganicChance(c))
  }

  /* ----- What helps and what hurts ----- */

  /** The probability before it is clipped. */
  function Chance(c: Context, a: ActionKind): real {
    match a
    case RetryNow => RetryNowChance(c)
    case RetryLater => RetryLaterChance(c)
    case SendPaymentLink => LinkChance(c)
    case SendReminder => ReminderChance(c)
    case OfferDiscount => DiscountChance(c)
    case Escalate => AssistedChance(c)
    case DoNothing => OrganicChance(c)
  }

  /** Nothing but success, earlier recoveries, communications and the cart differ, and all that
      differs is in favour of the first. */
  predicate AtLeastAsPromising(c: Context, d: Context) {
    && d == c.(successRate := d.successRate, recoveryRate := d.recoveryRate, communications := d.communications,
               cartAge := d.cartAge)
    && d.successRate <= c.successRate && d.recoveryRate <= c.recoveryRate && c.communications <= d.communications
    && (c.cartAge.Some? ==> d.cartAge.Some? && c.cartAge.value <= d.cartAge.value)
  }

  lemma TermsAreMonotone(c: Context, d: Context)
    requires AtLeastAsPromising(c, d)
    ensures Success(d) <= Success(c) && Loyalty(d) <= Loyalty(c) && Fatigue(c) <= Fatigue(d)
    ensures CartPenalty(c) <= CartPenalty(d)
    ensures RetryBase(c) == RetryBase(d) && AttemptPenalty(c) == AttemptPenalty(d) && HighAmountPenalty(c) == HighAmountPenalty(d)
  {
  }

  lemma WornIsMonotone(x: real, y: real, novelty: real)
    requires x <= y && novelty >= 0.0
    ensures Worn(x, novelty) <= Worn(y, novelty)
  {
  }

  lemma RetriesAreMonotone(c: Context, d: Context)
    requires AtLeastAsPromising(c, d)
    ensures RetryNowChance(d) <= RetryNowChance(c)
    ensures RetryLaterChance(d) <= RetryLaterChance(c)
  {
    TermsAreMonotone(c, d);
    assert RetryBase(d) + Loyalty(d) - CartPenalty(d) <= RetryBase(c) + Loyalty(c) - CartPenalty(c);
  }

  lemma MessagesAreMonotone(c: Context, d: Context)
    requires AtLeastAsPromising(c, d)
    ensures LinkChance(d) <= LinkChance(c)
    ensures ReminderChance(d) <= ReminderChance(c)
  {
    TermsAreMonotone(c, d);
  }

  lemma DiscountsAreMonotone(c: Context, d: Context)
    requires AtLeastAsPromising(c, d)
    ensures DiscountChance(d) <= DiscountChance(c)
  {
    TermsAreMonotone(c, d);
    assert Novelty(d) == Novelty(c) && DiscountTerms(d) <= DiscountTerms(c);
    WornIsMonotone(DiscountTerms(d), DiscountTerms(c), Novelty(c));
  }

  lemma ControlsAreMonotone(c: Context, d: Context)
    requires AtLeastAsPromising(c, d)
    ensures AssistedChance(d) <= AssistedChance(c)
    ensures OrganicChance(d) <= OrganicChance(c)
  {
    TermsAreMonotone(c, d);
  }

  lemma ChancesAreMonotone(c: Context, d: Context, a: ActionKind)
    requires AtLeastAsPromising(c, d)
    ensures Chance(d, a) <= Chance(c, a)
  {
    match a
    case RetryNow => RetriesAreMonotone(c, d);
    case RetryLater => RetriesAreMonotone(c, d);
    case SendPaymentLink => MessagesAreMonotone(c, d);
    case SendReminder => MessagesAreMonotone(c, d);
    case OfferDiscount => DiscountsAreMonotone(c, d);
    case _ => ControlsAreMonotone(c, d);
  }

  lemma HardFailuresAreMonotone(c: Context, d: Context, a: ActionKind)
    requires AtLeastAsPromising(c, d) && NeverCaptures(c.reason)
    ensures NeverCaptures(d.reason) && HardFailure(d, a) <= HardFailure(c, a)
  {
    TermsAreMonotone(c, d);
    if a.Escalate? {
      ClipIsMonotone(0.04 + 0.04 * Success(d), 0.04 + 0.04 * Success(c));
    } else if a.SendPaymentLink? && c.reason == Some(MandateFailure) {
      ClipIsMonotone(0.03 + 0.05 * Success(d), 0.03 + 0.05 * Success(c));
    }
  }

  lemma ProbabilityClips(c: Context, a: ActionKind)
    ensures Probability(c, a) == if NeverCaptures(c.reason) then HardFailure(c, a) else Clip(Chance(c, a))
  {
  }

  /** More success or earlier recoveries never hurt, and more communications or an older cart
      never help, whatever the failure and whatever is done about it. */
  lemma PromiseIsKept(c: Context, d: Context, a: ActionKind)
    requires AtLeastAsPromising(c, d)
    ensures Probability(d, a) <= Probability(c, a)
  {
    ProbabilityClips(c, a);
    ProbabilityClips(d, a);
    if NeverCaptures(c.reason) {
      HardFailuresAreMonotone(c, d, a);
    } else {
      ChancesAreMonotone(c, d, a);
      ClipIsMonotone(Chance(d, a), Chance(c, a));
    }
  }

  /* ----- Retries against waiting and links ----- */

  /** On an expired card a link is always likelier than any retry, by seven per cent or more. */
  lemma ExpiredCardsNeedLinks(c: Context)
    requires c.reason == Some(ExpiredCard)
    ensures Probability(c, RetryNow) <= 0.06 && Probability(c, RetryLater) <= 0.07
    ensures Probability(c, SendPaymentLink) >= 0.14
  {
    ClipIsMonotone(RetryNowChance(c), 0.06);
    ClipIsMonotone(RetryLaterChance(c), 0.07);
    ClipIsMonotone(0.14, LinkChance(c));
    ClipKeepsHundredths(6);
    ClipKeepsHundredths(7);
    ClipKeepsHundredths(14);
  }

  lemma ClipKeepsHundredths(n: nat)
    requires n <= 95
    ensures Clip(n as real / 100.0) == n as real / 100.0
  {
    assert n as real / 100.0 * 10000.0 == (100 * n) as real;
    RoundingKeepsWholePaise(100 * n);
  }

  /** Where funds are missing, waiting is never less likely to succeed than retrying at once. */
  lemma MissingFundsNeedTime(c: Context)
    requires c.reason == Some(InsufficientFunds)
    ensures Probability(c, RetryNow) <= Probability(c, RetryLater)
  {
    var base := RetryBase(c) + Loyalty(c) - CartPenalty(c);
    if base >= 0.0 {
      assert RetryNowChance(c) <= RetryLaterChance(c);
      ClipIsMonotone(RetryNowChance(c), RetryLaterChance(c));
    } else {
      ClipIsMonotone(RetryNowChance(c), 0.0);
      ClipKeepsHundredths(0);
    }
  }

  /* ----- A payment link against doing nothing ----- */

  /** The reasons for which the link's chance is not set by the reason alone. */
  predicate Ordinary(reason: Reason) {
    && !NeverCaptures(reason)
    && reason != Some(ExpiredCard) && reason != Some(Declined) && reason != Some(TemporaryBankError)
  }

  /** What the penalties for an old cart and a late attempt leave of the link's advantage. */
  function LinkMargin(c: Context): real {
    0.155 + 0.14 * Success(c) + 0.08 * Unit(c.recoveryRate) + 0.015 * Fatigue(c)
    + Bonus(c.abandoned, 0.06 + 0.5 * CartPenalty(c)) - CartPenalty(c) - AttemptPenalty(c)
  }

  lemma MarginIsAdvantage(c: Context)
    requires Ordinary(c.reason)
    ensures LinkChance(c) == OrganicChance(c) + LinkMargin(c)
  {
  }

  /** On any other reason the link's chance is above what doing nothing can reach. */
  lemma SpecialReasonsKeepUp(c: Context)
    requires !Ordinary(c.reason)
    ensures Probability(c, SendPaymentLink) >= Probability(c, DoNothing)
  {
    if NeverCaptures(c.reason) {
      ClipIsMonotone(0.03, 0.03 + 0.05 * Success(c));
      assert Quantized(0.03) == 0.03;
    } else {
      ClipIsMonotone(OrganicChance(c), LinkChance(c));
    }
  }

  /** A chance on the grid of four decimals that probabilities are rounded to. */
  function Grid(x: real): int {
    RoundHalfEven(x * 10000.0)
  }

  lemma ClipOnGrid(x: real)
    requires x <= 0.95
    ensures Clip(x) == (if Grid(x) < 0 then 0 else Grid(x)) as real / 10000.0
  {
    if x < 0.0 {
      RoundingIsMonotone(x * 10000.0, 0.0);
    } else {
      RoundingIsMonotone(0.0, x * 10000.0);
    }
  }

  lemma ChancesAreBounded(c: Context)
    ensures OrganicChance(c) <= 0.085 && (Ordinary(c.reason) ==> LinkChance(c) <= 0.52)
  {
  }

  /** A payment link is at least as likely to recover as doing nothing if and only if the
      reason is not an ordinary one, or doing nothing has no chance on the grid, or the margin
      does not take that chance below its grid point. */
  lemma LinkKeepsUpIff(c: Context)
    ensures Probability(c, SendPaymentLink) >= Probability(c, DoNothing) <==>
            !Ordinary(c.reason) || Grid(OrganicChance(c)) <= 0 || Grid(OrganicChance(c) + LinkMargin(c)) >= Grid(OrganicChance(c))
  {
    if !Ordinary(c.reason) {
      SpecialReasonsKeepUp(c);
    } else {
      MarginIsAdvantage(c);
      ChancesAreBounded(c);
      ClipOnGrid(LinkChance(c));
      ClipOnGrid(OrganicChance(c));
    }
  }

  /** In particular it keeps up while the penalties leave it a margin. */
  lemma LinkKeepsUp(c: Context)
    requires LinkMargin(c) >= 0.0 || !Ordinary(c.reason)
    ensures Probability(c, SendPaymentLink) >= Probability(c, DoNothing)
  {
    LinkKeepsUpIff(c);
    if Ordinary(c.reason) {
      RoundingIsMonotone(OrganicChance(c) * 10000.0, (OrganicChance(c) + LinkMargin(c)) * 10000.0);
    }
  }

  /** So it does on the first four attempts without a cart, on every reason. */
  lemma EarlyLinkKeepsUp(c: Context)
    requires c.attempt <= 4 && c.cartAge.None?
    ensures Probability(c, SendPaymentLink) >= Probability(c, DoNothing)
  {
    assert AttemptPenalty(c) <= 0.135;
    LinkKeepsUp(c);
  }

  /** Where the margin is negative by more than the rounding, and doing nothing has a chance
      at all, the link falls behind. */
  lemma LinkFallsBehind(c: Context)
    requires Ordinary(c.reason) && LinkMargin(c) < -0.0001 && Grid(OrganicChance(c)) > 0
    ensures Probability(c, SendPaymentLink) < Probability(c, DoNothing)
  {
    LinkKeepsUpIff(c);
    var x, y := OrganicChance(c) * 10000.0, (OrganicChance(c) + LinkMargin(c)) * 10000.0;
    assert y < x - 1.0;
  }

  /** The sixth attempt on an unknown failure is such a case. */
  lemma SixthAttemptFallsBehind()
    ensures var c := Context(Some(UnknownFailure), 6, 0, 0.0, 0.0, 0, 0.0, None, 0.0, 100_000, 12, false);
            Probability(c, SendPaymentLink) < Probability(c, DoNothing)
  {
    var c := Context(Some(UnknownFailure), 6, 0, 0.0, 0.0, 0, 0.0, None, 0.0, 100_000, 12, false);
    assert AttemptPenalty(c) == 0.225 && Fatigue(c) == 0.0;
    assert OrganicChance(c) == 0.025 && Grid(0.025) == 250;
    LinkFallsBehind(c);
  }
}
