/** Expected net recovery in paise: what is rounded, what is refused, and how far the
    rounded value is from the exact one. */
module Erv {
  import opened Domain
  import opened Money

  datatype PricingError = InvalidProbability | InvalidDiscount | NegativeMoney
  datatype Priced<+T> = Price(value: T) | Unpriced(error: PricingError)

  /** What an action costs, each amount rounded to paise on its own. */
  datatype Costs = Costs(intervention: nat, discount: nat, communication: nat, penalty: nat)
  {
    function Total(): nat {
      intervention + discount + communication + penalty
    }

    function Direct(): nat {
      intervention + communication + discount
    }
  }

  datatype Assumptions = Assumptions(intervention: real, communication: real, penalty: real)

  datatype OptimizerSettings = OptimizerSettings(
    tieEpsilon: real,
    defaultDiscount: real,
    assumptions: ActionKind -> Assumptions)

  function AsMoney(x: real): Priced<nat> {
    if IsMoney(x) then Price(RoundHalfEven(x)) else Unpriced(NegativeMoney)
  }

  /** The revenue `product` of a probability and an amount, if the probability is one. */
  function Revenue(probability: real, product: real): Priced<nat> {
    if probability < 0.0 || probability > 1.0 then Unpriced(InvalidProbability) else AsMoney(product)
  }

  function ExpectedRecoveredRevenue(probability: real, amount: nat): Priced<nat> {
    Revenue(probability, probability * amount as real)
  }

  function Net(expected: Priced<nat>, costs: Costs): Priced<int> {
    if expected.Unpriced? then Unpriced(expected.error) else Price(expected.value - costs.Total())
  }

  function ExpectedNetRecovery(probability: real, amount: nat, costs: Costs): Priced<int> {
    Net(ExpectedRecoveredRevenue(probability, amount), costs)
  }

  function DiscountCost(amount: nat, percent: real): Priced<nat> {
    if percent < 0.0 then Unpriced(InvalidDiscount) else AsMoney(amount as real * percent / 100.0)
  }

  function CostsForAction(kind: ActionKind, amount: nat, settings: OptimizerSettings, percent: Option<real>): Priced<Costs> {
    var a := settings.assumptions(kind);
    var intervention, communication, penalty := AsMoney(a.intervention), AsMoney(a.communication), AsMoney(a.penalty);
    var discount :=
      if kind.OfferDiscount? then DiscountCost(amount, if percent.Some? then percent.value else settings.defaultDiscount)
      else Price(0);
    if intervention.Unpriced? then Unpriced(intervention.error)
    else if communication.Unpriced? then Unpriced(communication.error)
    else if penalty.Unpriced? then Unpriced(penalty.error)
    else if discount.Unpriced? then Unpriced(discount.error)
    else Price(Costs(intervention.value, discount.value, communication.value, penalty.value))
  }

  /** The net value before the expected revenue is rounded. */
  function ExactNetRecovery(probability: real, amount: nat, costs: Costs): real {
    probability * amount as real - costs.Total() as real
  }

  lemma NetRounds(probability: real, product: real, amount: nat, costs: Costs)
    requires 0.0 <= probability <= 1.0 && 0.0 <= product <= amount as real
    ensures Net(Revenue(probability, product), costs) == Price(RoundHalfEven(product) - costs.Total())
    ensures 0 <= RoundHalfEven(product) <= amount
  {
    RoundingStaysBetween(product, amount);
  }

  lemma ErvRounds(probability: real, amount: nat, costs: Costs, product: real)
    requires 0.0 <= probability <= 1.0 && product == probability * amount as real
    ensures ExpectedNetRecovery(probability, amount, costs) == Price(RoundHalfEven(product) - costs.Total())
    ensures 0 <= RoundHalfEven(product) <= amount
  {
    assert 0.0 <= product <= amount as real by {
      PartOfAmount(probability, amount as real);
    }
    NetRounds(probability, product, amount, costs);
    assert ExpectedNetRecovery(probability, amount, costs) == Net(Revenue(probability, product), costs);
  }

  /** The four costs that a recovery is charged with. */
  function ChargedWith(costs: Costs): nat {
    costs.intervention + costs.discount + costs.communication + costs.penalty
  }

  /** The expected net recovery exists for every probability, stays within half a paisa of the
      exact one, and lies between losing all costs and recovering the whole amount. */
  lemma ErvIsNearExact(probability: real, amount: nat, costs: Costs)
    ensures ExpectedNetRecovery(probability, amount, costs).Price? <==> 0.0 <= probability <= 1.0
    ensures 0.0 <= probability <= 1.0 ==>
              var erv := ExpectedNetRecovery(probability, amount, costs).value;
              && -0.5 <= erv as real - ExactNetRecovery(probability, amount, costs) <= 0.5
              && ExactNetRecovery(probability, amount, costs) == probability * amount as real - ChargedWith(costs) as real
              && 0 <= erv + ChargedWith(costs) <= amount
  {
    if 0.0 <= probability <= 1.0 {
      ErvRounds(probability, amount, costs, probability * amount as real);
    }
  }

  /** The rate at which a discount is given: the caller's, or the default one. */
  function RateOf(settings: OptimizerSettings, percent: Option<real>): real {
    match percent
    case Some(rate) => rate
    case None => settings.defaultDiscount
  }

  function Concession(amount: nat, rate: real): real {
    amount as real * rate / 100.0
  }

  /** Every action is charged with the three costs assumed for it, each rounded on its own, and
      only an offered discount with the rounded concession too; one negative amount, or a
      negative rate of an offered discount, leaves the action without a price. */
  lemma CostsAreCharged(kind: ActionKind, amount: nat, settings: OptimizerSettings, percent: Option<real>)
    ensures var priced, a := CostsForAction(kind, amount, settings, percent), settings.assumptions(kind);
            var concession := Concession(amount, RateOf(settings, percent));
            && (priced.Price? <==>
                  && RoundHalfEven(a.intervention) >= 0 && RoundHalfEven(a.communication) >= 0 && RoundHalfEven(a.penalty) >= 0
                  && (kind.OfferDiscount? ==> RateOf(settings, percent) >= 0.0 && RoundHalfEven(concession) >= 0))
            && (priced.Price? ==>
                  && priced.value.intervention as int == RoundHalfEven(a.intervention)
                  && priced.value.communication as int == RoundHalfEven(a.communication)
                  && priced.value.penalty as int == RoundHalfEven(a.penalty)
                  && priced.value.discount as int == if kind.OfferDiscount? then RoundHalfEven(concession) else 0)
  {
    assert DiscountCost(amount, RateOf(settings, percent))
           == if RateOf(settings, percent) < 0.0 then Unpriced(InvalidDiscount)
              else AsMoney(Concession(amount, RateOf(settings, percent)));
  }

  lemma RoundingStaysBetween(x: real, amount: nat)
    requires 0.0 <= x <= amount as real
    ensures 0 <= RoundHalfEven(x) <= amount
  {
    RoundingIsMonotone(0.0, x);
    RoundingIsMonotone(x, amount as real);
    RoundingKeepsWholePaise(0);
    RoundingKeepsWholePaise(amount);
  }

  lemma ProductRises(p: real, q: real, a: real, b: real)
    requires 0.0 <= p <= q && 0.0 <= a <= b
    ensures p * a <= q * b
  {
    assert 0.0 <= (q - p) * a;
    assert 0.0 <= q * (b - a);
  }

  lemma PartOfAmount(p: real, a: real)
    requires 0.0 <= p <= 1.0 && a >= 0.0
    ensures 0.0 <= p * a <= a
  {
    assert p * a <= 1.0 * a;
  }

  /** A likelier recovery of a larger amount is never worth less. */
  lemma ErvRises(p: real, q: real, amount: nat, larger: nat, costs: Costs)
    requires 0.0 <= p <= q <= 1.0 && amount <= larger
    ensures ExpectedNetRecovery(p, amount, costs).Price? && ExpectedNetRecovery(q, larger, costs).Price?
    ensures ExpectedNetRecovery(p, amount, costs).value <= ExpectedNetRecovery(q, larger, costs).value
  {
    var x, y := p * amount as real, q * larger as real;
    ErvRounds(p, amount, costs, x);
    ErvRounds(q, larger, costs, y);
    ProductRises(p, q, amount as real, larger as real);
    RoundingIsMonotone(x, y);
  }
}
