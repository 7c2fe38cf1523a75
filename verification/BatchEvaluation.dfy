/** The paired counterfactual evaluation: both strategies meet the same draw on each case. */
module BatchEvaluation {
  import opened Domain
  import opened Simulator

  const SCORABLE_ACTIONS := [RetryNow, RetryLater, SendPaymentLink, SendReminder, OfferDiscount, Escalate, DoNothing]
  const LOWEST_ERV: real := -99_999_900.0

  datatype Strategy = Baseline | ReviveX

  datatype BatchCase = BatchCase(id: nat, context: Context)

  datatype CaseResult = CaseResult(
    id: nat,
    amountAtRisk: nat,
    action: ActionKind,
    recovered: bool,
    recoveredAmount: nat,
    cost: real,
    finalStatus: CaseStatus)

  datatype Metrics = Metrics(
    atRisk: nat,
    recovered: nat,
    recoveryRate: real,
    casesRecovered: nat,
    totalCases: nat,
    totalCost: real,
    netRecovery: real,
    casesEscalated: nat,
    casesStopped: nat)

  datatype Comparison = Comparison(
    baseline: Metrics,
    reviveX: Metrics,
    incrementalRevenue: int,
    upliftPercent: real)

  /* ----- Costs and choice ----- */

  function BaseCost(a: ActionKind): real {
    match a
    case RetryNow => 500.0
    case RetryLater => 200.0
    case SendPaymentLink => 300.0
    case SendReminder => 50.0
    case OfferDiscount => 100.0
    case Escalate => 25_000.0
    case DoNothing => 0.0
  }

  function RiskPenalty(a: ActionKind): real {
    match a
    case RetryNow => 1_500.0
    case RetryLater => 400.0
    case SendPaymentLink => 800.0
    case SendReminder => 1_200.0
    case OfferDiscount => 4_000.0
    case Escalate => 3_000.0
    case DoNothing => 0.0
  }

  /** _action_cost, in paise. */
  function ActionCost(a: ActionKind, amount: nat): (cost: real)
    ensures cost >= 0.0
    ensures cost == 0.0 <==> a.DoNothing?
    ensures cost == match a
                    case RetryNow => 2_000.0
                    case RetryLater => 600.0
                    case SendPaymentLink => 1_250.0
                    case SendReminder => 1_400.0
                    case OfferDiscount => 4_250.0 + amount as real / 20.0
                    case Escalate => 28_000.0
                    case DoNothing => 0.0
  {
    var discount := if a.OfferDiscount? then amount as real * 0.05 else 0.0;
    var communication := if a.SendPaymentLink? || a.SendReminder? || a.OfferDiscount? then 150.0 else 0.0;
    BaseCost(a) + discount + communication + RiskPenalty(a)
  }

  /** The probabilities of one case, per action. */
  type Chances = ActionKind -> real

  function ChancesOf(c: Context): Chances {
    a => Probability(c, a)
  }

  /** The value of an action: unlike the optimizer's, it is not rounded. */
  function Value(chance: Chances, amount: nat, a: ActionKind): real {
    chance(a) * amount as real - ActionCost(a, amount)
  }

  /** The first action of the highest value above the floor, if there is one. */
  function BestOf(chance: Chances, amount: nat, actions: seq<ActionKind>): (best: Option<ActionKind>)
    ensures best.Some? ==> best.value in actions
    ensures best.Some? ==> forall a <- actions :: Value(chance, amount, a) <= Value(chance, amount, best.value)
    ensures best.Some? ==> Value(chance, amount, best.value) > LOWEST_ERV
    ensures best.None? ==> forall a <- actions :: Value(chance, amount, a) <= LOWEST_ERV
  {
    if actions == [] then None
    else
      var front, last := BestOf(chance, amount, actions[..|actions| - 1]), actions[|actions| - 1];
      assert actions == actions[..|actions| - 1] + [last];
      var highest := if front.Some? then Value(chance, amount, front.value) else LOWEST_ERV;
      if Value(chance, amount, last) > highest then Some(last) else front
  }

  function Chosen(chance: Chances, amount: nat): ActionKind {
    var best := BestOf(chance, amount, SCORABLE_ACTIONS);
    if best.Some? then best.value else DoNothing
  }

  /** _revivex_strategy in heuristic mode. */
  method ReviveXStrategy(c: Context) returns (selected: ActionKind)
    ensures selected == Chosen(ChancesOf(c), c.amount)
  {
    var best := FindBest(ChancesOf(c), c.amount, SCORABLE_ACTIONS);
    selected := if best.Some? then best.value else DoNothing;
  }

  method FindBest(chance: Chances, amount: nat, actions: seq<ActionKind>) returns (best: Option<ActionKind>)
    ensures best == BestOf(chance, amount, actions)
  {
    best := None;
    var bestErv := LOWEST_ERV;
    for i := 0 to |actions|
      invariant best == BestOf(chance, amount, actions[..i])
      invariant bestErv == if best.Some? then Value(chance, amount, best.value) else LOWEST_ERV
    {
      var action := actions[i];
      assert actions[..i + 1][..i] == actions[..i];
      var erv := Value(chance, amount, action);
      if erv > bestErv {
        bestErv := erv;
        best := Some(action);
      }
    }
    assert actions[..|actions|] == actions;
  }

  /** The choice is worth at least as much as any action, doing nothing included. */
  lemma ChosenIsBest(chance: Chances, amount: nat, a: ActionKind)
    requires chance(DoNothing) >= 0.0
    ensures Value(chance, amount, a) <= Value(chance, amount, Chosen(chance, amount))
  {
    EveryActionIsScorable(DoNothing);
    EveryActionIsScorable(a);
    assert Value(chance, amount, DoNothing) >= 0.0;
  }

  lemma EveryActionIsScorable(a: ActionKind)
    ensures a in SCORABLE_ACTIONS
  {
    match a
    case RetryNow => assert SCORABLE_ACTIONS[0] == a;
    case RetryLater => assert SCORABLE_ACTIONS[1] == a;
    case SendPaymentLink => assert SCORABLE_ACTIONS[2] == a;
    case SendReminder => assert SCORABLE_ACTIONS[3] == a;
    case OfferDiscount => assert SCORABLE_ACTIONS[4] == a;
    case Escalate => assert SCORABLE_ACTIONS[5] == a;
    case DoNothing => assert SCORABLE_ACTIONS[6] == a;
  }

  /** The choice is at least as likely to recover as doing nothing: costs are not negative, so
      it could not be worth more otherwise, and nothing but doing nothing is free. */
  lemma ChosenIsLikelier(chance: Chances, amount: nat)
    requires chance(DoNothing) >= 0.0
    ensures chance(Chosen(chance, amount)) >= chance(DoNothing)
  {
    ChosenIsBest(chance, amount, DoNothing);
    NoLessWorthIsLikelier(chance, amount, Chosen(chance, amount));
  }

  lemma NoLessWorthIsLikelier(chance: Chances, amount: nat, a: ActionKind)
    requires Value(chance, amount, DoNothing) <= Value(chance, amount, a)
    ensures chance(a) >= chance(DoNothing)
  {
    if amount == 0 {
      FreeOnNothing(chance(a), chance(DoNothing), ActionCost(a, 0));
    } else if chance(a) < chance(DoNothing) {
      LessLikelyIsWorthLess(chance(a), chance(DoNothing), amount as real, ActionCost(a, amount));
    }
  }

  lemma FreeOnNothing(p: real, q: real, cost: real)
    ensures q * 0.0 <= p * 0.0 - cost ==> cost <= 0.0
  {
  }

  lemma LessLikelyIsWorthLess(p: real, q: real, amount: real, cost: real)
    requires p < q && amount > 0.0 && cost >= 0.0
    ensures p * amount - cost < q * amount
  {
    assert (q - p) * amount > 0.0;
  }

  /* ----- One case ----- */

  /** _simulate_outcome on the draw u, and the cost of the action. */
  function Outcome(b: BatchCase, a: ActionKind, u: real): CaseResult {
    var recovered := u < Probability(b.context, a);
    CaseResult(b.id, b.context.amount, a, recovered, if recovered then b.context.amount else 0,
        ActionCost(a, b.context.amount),
               if recovered then Recovered
               else if a.Escalate? then Escalated
               else if a.DoNothing? then Stopped
               else ExecutionFailed)
  }

  /** _evaluate_case: the draw depends on the seed and the case, not on the strategy. */
  function Evaluated(b: BatchCase, s: Strategy, seed: int, draw: (int, nat) -> real): CaseResult {
    Outcome(b, if s.Baseline? then DoNothing else Chosen(ChancesOf(b.context), b.context.amount), draw(seed, b.id))
  }

  method EvaluateCase(b: BatchCase, s: Strategy, seed: int, draw: (int, nat) -> real) returns (r: CaseResult)
    ensures r == Evaluated(b, s, seed, draw)
    ensures r.id == b.id && r.amountAtRisk == b.context.amount && (s.Baseline? ==> r.action.DoNothing?)
    ensures r.recovered <==> draw(seed, b.id) < Probability(b.context, r.action)
    ensures r.recoveredAmount == (if r.recovered then b.context.amount else 0) && r.cost == ActionCost(r.action, b.context.amount)
    ensures r.finalStatus == if r.recovered then Recovered
                             else match r.action
                                  case Escalate => Escalated
                                  case DoNothing => Stopped
                                  case _ => ExecutionFailed
  {
    var action := DoNothing;
    if s.ReviveX? {
      action := ReviveXStrategy(b.context);
    }
    r := Outcome(b, action, draw(seed, b.id));
  }

  /** On each case, whatever the draw: what the baseline recovers, ReviveX recovers too. */
  lemma PairedCase(b: BatchCase, seed: int, draw: (int, nat) -> real)
    ensures var base, rex := Evaluated(b, Baseline, seed, draw), Evaluated(b, ReviveX, seed, draw);
            (base.recovered ==> rex.recovered) && base.recoveredAmount <= rex.recoveredAmount
  {
    ChosenIsLikelier(ChancesOf(b.context), b.context.amount);
  }

  /* ----- A batch ----- */

  function Results(cases: seq<BatchCase>, s: Strategy, seed: int, draw: (int, nat) -> real): seq<CaseResult> {
    seq(|cases|, k requires 0 <= k < |cases| => Evaluated(cases[k], s, seed, draw))
  }

  function TotalAtRisk(rs: seq<CaseResult>): nat {
    if rs == [] then 0 else TotalAtRisk(rs[..|rs| - 1]) + rs[|rs| - 1].amountAtRisk
  }

  function TotalRecovered(rs: seq<CaseResult>): nat {
    if rs == [] then 0 else TotalRecovered(rs[..|rs| - 1]) + rs[|rs| - 1].recoveredAmount
  }

  function TotalCost(rs: seq<CaseResult>): real {
    if rs == [] then 0.0 else TotalCost(rs[..|rs| - 1]) + rs[|rs| - 1].cost
  }

  function Count(rs: seq<CaseResult>, s: CaseStatus): nat {
    if rs == [] then 0 else Count(rs[..|rs| - 1], s) + if rs[|rs| - 1].finalStatus == s then 1 else 0
  }

  function CountRecovered(rs: seq<CaseResult>): nat {
    if rs == [] then 0 else CountRecovered(rs[..|rs| - 1]) + if rs[|rs| - 1].recovered then 1 else 0
  }

  /** _compute_metrics. */
  function MetricsOf(rs: seq<CaseResult>): Metrics {
    var atRisk, recovered, cost := TotalAtRisk(rs), TotalRecovered(rs), TotalCost(rs);
    Metrics(atRisk, recovered, if atRisk > 0 then recovered as real / atRisk as real else 0.0,
            CountRecovered(rs), |rs|, cost, recovered as real - cost, Count(rs, Escalated), Count(rs, Stopped))
  }

  function Compared(base: Metrics, rex: Metrics): Comparison {
    var incremental := rex.recovered - base.recovered;
    Comparison(base, rex, incremental,
               if base.recovered > 0 then incremental as real / base.recovered as real * 100.0 else 0.0)
  }

  /** evaluate_batch, in heuristic mode, on a given list of cases. */
  method EvaluateBatch(cases: seq<BatchCase>, seed: int, draw: (int, nat) -> real) returns (c: Comparison)
    ensures c == Compared(MetricsOf(Results(cases, Baseline, seed, draw)), MetricsOf(Results(cases, ReviveX, seed, draw)))
  {
    var base := EvaluateAll(cases, Baseline, seed, draw);
    var rex := EvaluateAll(cases, ReviveX, seed, draw);
    c := Compared(MetricsOf(base), MetricsOf(rex));
  }

  method EvaluateAll(cases: seq<BatchCase>, s: Strategy, seed: int,
          draw: (int, nat) -> real) returns (results: seq<CaseResult>)
    ensures results == Results(cases, s, seed, draw)
  {
    results := [];
    for i := 0 to |cases|
      invariant results == Results(cases[..i], s, seed, draw)
    {
      var r := EvaluateCase(cases[i], s, seed, draw);
      results := results + [r];
    }
    assert cases[..|cases|] == cases;
  }

  /** Result by result, one list recovers whatever the other does. */
  ghost predicate Dominates(rex: seq<CaseResult>, base: seq<CaseResult>) {
    |rex| == |base| && forall k | 0 <= k < |base| ::
      rex[k].id == base[k].id && rex[k].amountAtRisk == base[k].amountAtRisk
      && (base[k].recovered ==> rex[k].recovered) && base[k].recoveredAmount <= rex[k].recoveredAmount
  }

  lemma {:induction false} DominanceAddsUp(rex: seq<CaseResult>, base: seq<CaseResult>)
    requires Dominates(rex, base)
    ensures TotalRecovered(base) <= TotalRecovered(rex) && CountRecovered(base) <= CountRecovered(rex)
    ensures TotalAtRisk(base) == TotalAtRisk(rex)
  {
    if base != [] {
      DominanceAddsUp(rex[..|rex| - 1], base[..|base| - 1]);
    }
  }

  /** Paired dominance: for every list of cases, seed and draw, ReviveX recovers every case the
      baseline recovers, so incremental revenue, recovered cases and uplift are never negative. */
  lemma ReviveXNeverLoses(cases: seq<BatchCase>, seed: int, draw: (int, nat) -> real)
    ensures Dominates(Results(cases, ReviveX, seed, draw), Results(cases, Baseline, seed, draw))
    ensures var c := Compared(MetricsOf(Results(cases, Baseline, seed, draw)),
        MetricsOf(Results(cases, ReviveX, seed, draw)));
            && c.incrementalRevenue >= 0 && c.upliftPercent >= 0.0
            && c.baseline.casesRecovered <= c.reviveX.casesRecovered
            && c.baseline.recoveryRate <= c.reviveX.recoveryRate
  {
    var base, rex := Results(cases, Baseline, seed, draw), Results(cases, ReviveX, seed, draw);
    forall k | 0 <= k < |cases| ensures (base[k].recovered ==> rex[k].recovered)
        && base[k].recoveredAmount <= rex[k].recoveredAmount {
      PairedCase(cases[k], seed, draw);
    }
    DominanceAddsUp(rex, base);
    UpliftIsNotNegative(MetricsOf(base), MetricsOf(rex));
  }

  lemma UpliftIsNotNegative(base: Metrics, rex: Metrics)
    requires base.recovered <= rex.recovered && base.atRisk == rex.atRisk
    requires base.recoveryRate == if base.atRisk > 0 then base.recovered as real / base.atRisk as real else 0.0
    requires rex.recoveryRate == if rex.atRisk > 0 then rex.recovered as real / rex.atRisk as real else 0.0
    ensures Compared(base, rex).upliftPercent >= 0.0 && base.recoveryRate <= rex.recoveryRate
  {
    if base.recovered > 0 {
      QuotientRises(0.0, (rex.recovered - base.recovered) as real, base.recovered as real);
    }
    if base.atRisk > 0 {
      QuotientRises(base.recovered as real, rex.recovered as real, base.atRisk as real);
    }
  }

  lemma QuotientRises(a: real, b: real, d: real)
    requires a <= b && d > 0.0
    ensures a / d <= b / d
  {
    assert (b - a) / d >= 0.0;
  }

  /* ----- What the metrics add up ----- */

  function Sum(xs: seq<real>): real {
    if xs == [] then 0.0 else xs[0] + Sum(xs[1..])
  }

  lemma {:induction false} SumOfOneMore(front: seq<real>, x: real)
    ensures Sum(front + [x]) == Sum(front) + x
  {
    if front != [] {
      assert (front + [x])[1..] == front[1..] + [x];
      SumOfOneMore(front[1..], x);
    }
  }

  function Each(rs: seq<CaseResult>, f: CaseResult -> real): seq<real> {
    seq(|rs|, k requires 0 <= k < |rs| => f(rs[k]))
  }

  lemma {:induction false} EachOfOneMore(front: seq<CaseResult>, r: CaseResult, f: CaseResult -> real)
    ensures Sum(Each(front + [r], f)) == Sum(Each(front, f)) + f(r)
  {
    assert Each(front + [r], f) == Each(front, f) + [f(r)];
    SumOfOneMore(Each(front, f), f(r));
  }

  const AtRisk := (r: CaseResult) => r.amountAtRisk as real
  const Got := (r: CaseResult) => r.recoveredAmount as real
  const Spent := (r: CaseResult) => r.cost
  const Kept := (r: CaseResult) => r.recoveredAmount as real - r.cost

  lemma {:induction false} TotalsAreSums(rs: seq<CaseResult>)
    ensures TotalAtRisk(rs) as real == Sum(Each(rs, AtRisk)) && TotalRecovered(rs) as real == Sum(Each(rs, Got))
    ensures TotalCost(rs) == Sum(Each(rs, Spent)) && TotalRecovered(rs) as real - TotalCost(rs) == Sum(Each(rs, Kept))
  {
    if rs != [] {
      var front, r := rs[..|rs| - 1], rs[|rs| - 1];
      assert rs == front + [r];
      TotalsAreSums(front);
      EachOfOneMore(front, r, AtRisk);
      EachOfOneMore(front, r, Got);
      EachOfOneMore(front, r, Spent);
      EachOfOneMore(front, r, Kept);
    }
  }

  function HowMany(flags: seq<bool>): nat {
    |set k | 0 <= k < |flags| && flags[k]|
  }

  function Which(rs: seq<CaseResult>, f: CaseResult -> bool): seq<bool> {
    seq(|rs|, k requires 0 <= k < |rs| => f(rs[k]))
  }

  lemma {:induction false} OneMoreFlag(front: seq<bool>, x: bool)
    ensures HowMany(front + [x]) == HowMany(front) + if x then 1 else 0
  {
    var n, all := |front|, front + [x];
    var before := set k | 0 <= k < n && front[k];
    assert (set k | 0 <= k < |all| && all[k]) == before + if x then {n} else {};
  }

  const Escalates := (r: CaseResult) => r.finalStatus.Escalated?
  const Stops := (r: CaseResult) => r.finalStatus.Stopped?
  const Recovers := (r: CaseResult) => r.recovered

  lemma {:induction false} CountsAreSizes(rs: seq<CaseResult>)
    ensures Count(rs, Escalated) == HowMany(Which(rs, Escalates)) && Count(rs, Stopped) == HowMany(Which(rs, Stops))
    ensures CountRecovered(rs) == HowMany(Which(rs, Recovers))
  {
    if rs != [] {
      var front, r := rs[..|rs| - 1], rs[|rs| - 1];
      CountsAreSizes(front);
      OneMoreFlag(Which(front, Escalates), Escalates(r));
      OneMoreFlag(Which(front, Stops), Stops(r));
      OneMoreFlag(Which(front, Recovers), Recovers(r));
      assert Which(rs, Escalates) == Which(front, Escalates) + [Escalates(r)];
      assert Which(rs, Stops) == Which(front, Stops) + [Stops(r)];
      assert Which(rs, Recovers) == Which(front, Recovers) + [Recovers(r)];
    }
  }

  lemma ShareOf(part: real, whole: real, share: real)
    requires whole > 0.0 && share == part / whole
    ensures share * whole == part
  {
  }

  /** Every metric is a sum or a count over the results, and the rate is the share of the money
      at risk that was recovered. */
  lemma {:induction false} MetricsAddUp(rs: seq<CaseResult>)
    ensures var m := MetricsOf(rs);
            && m.atRisk as real == Sum(Each(rs, AtRisk)) && m.recovered as real == Sum(Each(rs, Got))
            && m.totalCost == Sum(Each(rs, Spent)) && m.netRecovery == Sum(Each(rs, Kept))
            && m.recoveryRate * m.atRisk as real == (if m.atRisk > 0 then m.recovered as real else 0.0)
            && (m.atRisk == 0 ==> m.recoveryRate == 0.0)
            && m.totalCases == |rs| && m.casesRecovered == HowMany(Which(rs, Recovers))
            && m.casesEscalated == HowMany(Which(rs, Escalates))
            && m.casesStopped == HowMany(Which(rs, Stops))
  {
    TotalsAreSums(rs);
    CountsAreSizes(rs);
    var m := MetricsOf(rs);
    if m.atRisk > 0 {
      ShareOf(m.recovered as real, m.atRisk as real, m.recoveryRate);
    }
  }

  /** What one action brings on one draw. */
  function Brings(b: BatchCase, a: ActionKind, u: real): nat {
    if u < Probability(b.context, a) then b.context.amount else 0
  }

  /** What choosing an action over doing nothing brings, on the same draw. */
  function Gain(b: BatchCase, seed: int, draw: (int, nat) -> real): real {
    var u := draw(seed, b.id);
    Brings(b, Chosen(ChancesOf(b.context), b.context.amount), u) as real - Brings(b, DoNothing, u) as real
  }

  function Gains(cases: seq<BatchCase>, seed: int, draw: (int, nat) -> real): seq<real> {
    seq(|cases|, k requires 0 <= k < |cases| => Gain(cases[k], seed, draw))
  }

  lemma {:induction false} OneMoreGain(cases: seq<BatchCase>, seed: int, draw: (int, nat) -> real)
    requires cases != []
    ensures var n := |cases| - 1;
            Sum(Gains(cases, seed, draw)) == Sum(Gains(cases[..n], seed, draw)) + Gain(cases[n], seed, draw)
  {
    var n := |cases| - 1;
    assert Gains(cases, seed, draw) == Gains(cases[..n], seed, draw) + [Gain(cases[n], seed, draw)];
    SumOfOneMore(Gains(cases[..n], seed, draw), Gain(cases[n], seed, draw));
  }

  lemma {:induction false} GainsAreDifferences(cases: seq<BatchCase>, seed: int, draw: (int, nat) -> real)
    ensures TotalRecovered(Results(cases, ReviveX, seed, draw)) as real
            - TotalRecovered(Results(cases, Baseline, seed, draw)) as real
            == Sum(Gains(cases, seed, draw))
  {
    if cases != [] {
      var n := |cases| - 1;
      GainsAreDifferences(cases[..n], seed, draw);
      OneMoreRecovered(cases, ReviveX, seed, draw);
      OneMoreRecovered(cases, Baseline, seed, draw);
      OneMoreGain(cases, seed, draw);
      GainIsDifference(cases[n], seed, draw);
    }
  }

  lemma {:induction false} OneMoreRecovered(cases: seq<BatchCase>, s: Strategy, seed: int, draw: (int, nat) -> real)
    requires cases != []
    ensures var n := |cases| - 1;
            TotalRecovered(Results(cases, s, seed, draw))
            == TotalRecovered(Results(cases[..n], s, seed, draw)) + Evaluated(cases[n], s, seed, draw).recoveredAmount
  {
    var n := |cases| - 1;
    assert Results(cases, s, seed, draw)[..n] == Results(cases[..n], s, seed, draw);
  }

  lemma {:induction false} GainIsDifference(b: BatchCase, seed: int, draw: (int, nat) -> real)
    ensures Gain(b, seed, draw)
            == Evaluated(b, ReviveX, seed, draw).recoveredAmount as real
               - Evaluated(b, Baseline, seed, draw).recoveredAmount as real
  {
  }

  /** So many per cent of the base make the increment; without a base the uplift is zero. */
  predicate IsUplift(percent: real, base: real, increment: real) {
    if base > 0.0 then percent / 100.0 * base == increment else percent == 0.0
  }

  /** The increment is the sum of the gains of the single cases, on the draws that both
      strategies meet, and the uplift its share of what the baseline recovers. */
  lemma {:induction false} IncrementIsPaired(cases: seq<BatchCase>, seed: int, draw: (int, nat) -> real)
    ensures var c := Compared(MetricsOf(Results(cases, Baseline, seed, draw)), MetricsOf(Results(cases, ReviveX, seed, draw)));
            && c.incrementalRevenue as real == Sum(Gains(cases, seed, draw))
            && IsUplift(c.upliftPercent, c.baseline.recovered as real, c.incrementalRevenue as real)
  {
    GainsAreDifferences(cases, seed, draw);
    var base, rex := MetricsOf(Results(cases, Baseline, seed, draw)), MetricsOf(Results(cases, ReviveX, seed, draw));
    UpliftIsShare(base, rex);
  }

  lemma UpliftIsShare(base: Metrics, rex: Metrics)
    ensures var c := Compared(base, rex);
            IsUplift(c.upliftPercent, base.recovered as real, c.incrementalRevenue as real)
  {
    var c := Compared(base, rex);
    if base.recovered > 0 {
      var share := c.incrementalRevenue as real / base.recovered as real;
      assert c.upliftPercent / 100.0 == share;
      ShareOf(c.incrementalRevenue as real, base.recovered as real, share);
    }
  }
}
