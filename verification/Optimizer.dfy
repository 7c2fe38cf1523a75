/** RecoveryOptimizer.optimize: from a caller's list of actions to one selected action. */
module Optimizer {
  import opened Domain
  import opened Policy
  import opened Erv
  import opened Ranking

  const LEGAL_ACTIONS := [RetryNow, RetryLater, SendPaymentLink, SendReminder, OfferDiscount, Escalate, DoNothing]

  datatype RawAction = Known(kind: ActionKind) | Unknown(name: nat)
  datatype Normalized = Actions(actions: seq<ActionKind>) | InvalidAction(name: nat)

  /* ----- Normalizing the caller's list ----- */

  /** The actions of a list, each once, where it first stands. */
  function Deduplicated(raw: seq<RawAction>): seq<ActionKind> {
    if raw == [] then []
    else
      var front, last := Deduplicated(raw[..|raw| - 1]), raw[|raw| - 1];
      if last.Known? && last.kind !in front then front + [last.kind] else front
  }

  predicate AllKnown(raw: seq<RawAction>) {
    forall r <- raw :: r.Known?
  }

  predicate NoRepeats(actions: seq<ActionKind>) {
    forall i, j | 0 <= i < j < |actions| :: actions[i] != actions[j]
  }

  lemma {:induction false} DeduplicatedIsDistinct(raw: seq<RawAction>)
    ensures NoRepeats(Deduplicated(raw))
    ensures forall a :: a in Deduplicated(raw) <==> Known(a) in raw
  {
    if raw != [] {
      var n := |raw| - 1;
      DeduplicatedIsDistinct(raw[..n]);
      assert raw == raw[..n] + [raw[n]];
    }
  }

  /** _normalize_candidates: the actions of the list, each once, in the order of their first
      occurrences; or the first unknown action. */
  method NormalizeCandidates(candidates: Option<seq<RawAction>>) returns (r: Normalized)
    ensures candidates.None? ==> r == Actions(LEGAL_ACTIONS)
    ensures candidates.Some? && AllKnown(candidates.value) ==> r == Actions(Deduplicated(candidates.value))
    ensures candidates.Some? && !AllKnown(candidates.value) ==>
              exists k | 0 <= k < |candidates.value| ::
                r.InvalidAction? && candidates.value[k] == Unknown(r.name) && AllKnown(candidates.value[..k])
  {
    if candidates.None? {
      return Actions(LEGAL_ACTIONS);
    }
    var raw, unique, seen := candidates.value, [], {};
    for i := 0 to |raw|
      invariant AllKnown(raw[..i])
      invariant unique == Deduplicated(raw[..i])
      invariant forall a :: a in seen <==> a in unique
    {
      assert raw[..i + 1][..i] == raw[..i];
      if raw[i].Unknown? {
        assert raw[i] in raw;
        return InvalidAction(raw[i].name);
      }
      var action := raw[i].kind;
      if action !in seen {
        seen := seen + {action};
        unique := unique + [action];
      }
    }
    assert raw[..|raw|] == raw;
    r := Actions(unique);
  }

  /* ----- Scoring ----- */

  /** What the optimizer reads from outside: a probability per action, when there is one, and
      either ready policy results, or a context to evaluate, or no policy at all. */
  datatype Inputs = Inputs(
    amount: nat,
    quotes: ActionKind -> Option<real>,
    results: map<ActionKind, Verdict>,
    context: Option<Context>,
    discountPercent: Option<real>,
    suspicious: bool,
    sourceMismatch: bool)

  const UNCONSTRAINED := Verdict(true, false, Green, [])

  /** _evaluate_policy. */
  function PolicyFor(x: Inputs, kind: ActionKind, percent: real, concession: nat): Verdict {
    if kind in x.results then x.results[kind]
    else if x.context.None? then UNCONSTRAINED
    else
      var discount := kind.OfferDiscount?;
      Evaluate(x.context.value, Proposal(kind, if discount then Some(percent) else None, if discount
          then Some(concession as real) else None))
  }

  /** _candidate_from_quote. */
  function CandidateFrom(kind: ActionKind, amount: nat, quote: Option<real>, costs: Costs, v: Verdict): Priced<Candidate> {
    if quote.None? then Price(Candidate(kind, None, true, amount, costs, 0, false, false))
    else
      var erv := ExpectedNetRecovery(quote.value, amount, costs);
      if erv.Unpriced? then Unpriced(erv.error)
      else Price(Candidate(kind, quote, false, amount, costs, erv.value, v.allowed, v.requiresApproval && v.allowed))
  }

  function Scored(x: Inputs, settings: OptimizerSettings, kind: ActionKind): Priced<Candidate> {
    var quote := x.quotes(kind);
    if quote.Some? && (quote.value < 0.0 || quote.value > 1.0) then Unpriced(InvalidProbability)
    else
      var percent := if x.discountPercent.Some? then x.discountPercent.value else settings.defaultDiscount;
      var costs := CostsForAction(kind, x.amount, settings, Some(percent));
      if costs.Unpriced? then Unpriced(costs.error)
      else CandidateFrom(kind, x.amount, quote, costs.value, PolicyFor(x, kind, percent, costs.value.discount))
  }

  /** How each action is scored for one case. */
  function Scorer(x: Inputs, settings: OptimizerSettings): ActionKind -> Priced<Candidate> {
    kind => Scored(x, settings, kind)
  }

  predicate AllPriced(score: ActionKind -> Priced<Candidate>, actions: seq<ActionKind>) {
    forall a <- actions :: score(a).Price?
  }

  function ScoredAll(score: ActionKind -> Priced<Candidate>, actions: seq<ActionKind>): seq<Candidate>
    requires AllPriced(score, actions)
  {
    seq(|actions|, k requires 0 <= k < |actions| => score(actions[k]).value)
  }

  method ScoreAll(score: ActionKind -> Priced<Candidate>, actions: seq<ActionKind>) returns (scored: Priced<seq<Candidate>>)
    ensures if AllPriced(score, actions) then scored == Price(ScoredAll(score, actions))
            else scored.Unpriced? && exists a <- actions :: score(a) == Unpriced(scored.error)
  {
    var candidates := [];
    for i := 0 to |actions|
      invariant AllPriced(score, actions[..i])
      invariant candidates == ScoredAll(score, actions[..i])
    {
      var candidate := score(actions[i]);
      assert actions[i] in actions;
      if candidate.Unpriced? {
        return Unpriced(candidate.error);
      }
      assert forall a <- actions[..i + 1] :: a in actions[..i] || a == actions[i];
      candidates := candidates + [candidate.value];
    }
    assert actions[..|actions|] == actions;
    scored := Price(candidates);
  }

  /** The verdict on an action: the one that is handed in, else policy's own on the discount and
      concession that are priced, else none. */
  predicate JudgedBy(x: Inputs, kind: ActionKind, rate: real, concession: nat, v: Verdict) {
    if kind in x.results then v == x.results[kind]
    else match x.context
         case None => v.allowed && !v.requiresApproval
         case Some(context) =>
           v == Evaluate(context, if kind.OfferDiscount? then Proposal(kind, Some(rate), Some(concession as real))
                                  else Proposal(kind, None, None))
  }

  /** How an action is scored: at its own costs and its expected net recovery under its quote,
      allowed exactly if policy allows it; without a quote it may not run; a quote that is no
      probability, or costs without a price, stop the optimizer. */
  lemma {:induction false} ScoringOutcome(x: Inputs, settings: OptimizerSettings, kind: ActionKind)
    ensures var scored, quote := Scored(x, settings, kind), x.quotes(kind);
            var rate := RateOf(settings, x.discountPercent);
            var costs := CostsForAction(kind, x.amount, settings, Some(rate));
            if quote.Some? && !(0.0 <= quote.value <= 1.0) then scored == Unpriced(InvalidProbability)
            else if costs.Unpriced? then scored.Unpriced? && scored.error == costs.error
            else
              && scored.Price?
              && var c := scored.value;
                 && c.action == kind && c.amountAtRisk == x.amount && c.costs == costs.value && c.probability == quote
                 && (c.missing <==> quote.None?)
                 && (quote.None? ==> !c.allowed)
                 && (quote.Some? ==>
                       && Price(c.value) == ExpectedNetRecovery(quote.value, x.amount, costs.value)
                       && exists v :: JudgedBy(x, kind, rate, costs.value.discount, v)
                                      && c.allowed == v.allowed && c.requiresApproval == (v.requiresApproval && v.allowed))
  {
    var quote, rate := x.quotes(kind), RateOf(settings, x.discountPercent);
    var costs := CostsForAction(kind, x.amount, settings, Some(rate));
    if costs.Price? {
      assert JudgedBy(x, kind, rate, costs.value.discount, PolicyFor(x, kind, rate, costs.value.discount));
      if quote.Some? && 0.0 <= quote.value <= 1.0 {
        ErvIsNearExact(quote.value, x.amount, costs.value);
      }
    }
  }

  lemma {:induction false} ScoredFor(x: Inputs, settings: OptimizerSettings, kind: ActionKind)
    requires Scored(x, settings, kind).Price?
    ensures var c := Scored(x, settings, kind).value;
            && c.action == kind && (IsEligible(c) ==> IsPriced(c))
  {
    var percent := if x.discountPercent.Some? then x.discountPercent.value else settings.defaultDiscount;
    var costs := CostsForAction(kind, x.amount, settings, Some(percent)).value;
    CandidateIsPriced(kind, x.amount, x.quotes(kind), costs, PolicyFor(x, kind, percent, costs.discount));
  }

  lemma {:induction false} CandidateIsPriced(kind: ActionKind, amount: nat, quote: Option<real>, costs: Costs, v: Verdict)
    requires quote.Some? ==> 0.0 <= quote.value <= 1.0
    ensures var c := CandidateFrom(kind, amount, quote, costs, v);
            c.Price? && c.value.action == kind && (IsEligible(c.value) ==> IsPriced(c.value))
  {
    if quote.Some? {
      ErvIsNearExact(quote.value, amount, costs);
    }
  }

  /** A scored candidate answers for its own action. */
  ghost predicate Labels(score: ActionKind -> Priced<Candidate>) {
    forall a :: score(a).Price? ==> score(a).value.action == a && (IsEligible(score(a).value) ==> IsPriced(score(a).value))
  }

  lemma {:induction false} ScorerLabels(x: Inputs, settings: OptimizerSettings)
    ensures Labels(Scorer(x, settings))
  {
    forall a | Scorer(x, settings)(a).Price?
      ensures Scorer(x, settings)(a).value.action == a && (IsEligible(Scorer(x, settings)(a).value)
          ==> IsPriced(Scorer(x, settings)(a).value))
    {
      ScoredFor(x, settings, a);
    }
  }

  lemma {:induction false} ScoredAllHas(score: ActionKind -> Priced<Candidate>, actions: seq<ActionKind>, c: Candidate)
    requires AllPriced(score, actions) && Labels(score)
    ensures c in ScoredAll(score, actions) <==> c.action in actions && score(c.action) == Price(c)
  {
    var all := ScoredAll(score, actions);
    if c.action in actions && score(c.action) == Price(c) {
      var k :| 0 <= k < |actions| && actions[k] == c.action;
      assert all[k] == c;
    }
  }

  /** Alphabetical order of the action names, as a falling key. */
  function Alphabetical(c: Candidate): int {
    match c.action
    case DoNothing => 6
    case Escalate => 5
    case OfferDiscount => 4
    case RetryLater => 3
    case RetryNow => 2
    case SendPaymentLink => 1
    case SendReminder => 0
  }

  /* ----- Optimizing ----- */

  datatype Optimized = Decision(selection: Selection) | Refused(name: nat) | NotPriced(error: PricingError)

  /** The selection of optimize among actions that can all be priced. */
  function Choice(x: Inputs, settings: OptimizerSettings, score: ActionKind -> Priced<Candidate>,
          actions: seq<ActionKind>): Selection
    requires AllPriced(score, actions)
  {
    SelectAction(Ranked(ScoredAll(score, actions), Alphabetical), settings, x.suspicious, x.sourceMismatch)
  }

  /** RecoveryOptimizer.optimize. */
  method Optimize(x: Inputs, settings: OptimizerSettings, candidates: Option<seq<RawAction>>) returns (o: Optimized)
    ensures o.Refused? <==> candidates.Some? && !AllKnown(candidates.value)
    ensures !o.Refused? ==>
              var score, actions := Scorer(x, settings), if candidates.Some? then Deduplicated(candidates.value)
                  else LEGAL_ACTIONS;
              if AllPriced(score, actions) then o == Decision(Choice(x, settings, score, actions))
              else o.NotPriced? && exists a <- actions :: score(a) == Unpriced(o.error)
  {
    var normalized := NormalizeCandidates(candidates);
    if normalized.InvalidAction? {
      return Refused(normalized.name);
    }
    var scored := ScoreAll(Scorer(x, settings), normalized.actions);
    if scored.Unpriced? {
      return NotPriced(scored.error);
    }
    o := Decision(SelectAction(Ranked(scored.value, Alphabetical), settings, x.suspicious, x.sourceMismatch));
  }

  /** The scored candidates have distinct actions, even where the caller's list repeats some. */
  lemma {:induction false} ScoredAreDistinct(score: ActionKind -> Priced<Candidate>, actions: seq<ActionKind>)
    requires AllPriced(score, actions) && Labels(score)
    ensures DistinctActions(ScoredAll(score, actions))
    ensures forall c <- ScoredAll(score, actions) :: IsEligible(c) ==> IsPriced(c)
  {
    var all := ScoredAll(score, actions);
    forall a, b | a in all && b in all && a.action == b.action ensures a == b {
      ScoredAllHas(score, actions, a);
      ScoredAllHas(score, actions, b);
    }
    forall c | c in all && IsEligible(c) ensures IsPriced(c) {
      ScoredAllHas(score, actions, c);
    }
  }

  /** The optimizer's choice depends on the set of candidate actions alone, not on their order
      or repetitions. */
  lemma {:induction false} ChoiceIgnoresOrder(x: Inputs, settings: OptimizerSettings, raw: seq<RawAction>,
          other: seq<RawAction>)
    requires AllKnown(raw) && AllKnown(other) && forall r :: r in raw <==> r in other
    requires AllPriced(Scorer(x, settings), Deduplicated(raw))
    ensures AllPriced(Scorer(x, settings), Deduplicated(other))
    ensures Choice(x, settings, Scorer(x, settings), Deduplicated(raw))
        == Choice(x, settings, Scorer(x, settings), Deduplicated(other))
  {
    DeduplicatedIsDistinct(raw);
    DeduplicatedIsDistinct(other);
    ScorerLabels(x, settings);
    SameActionsSameChoice(x, settings, Scorer(x, settings), Deduplicated(raw), Deduplicated(other));
  }

  lemma {:induction false} SameActionsSameChoice(x: Inputs, settings: OptimizerSettings,
          score: ActionKind -> Priced<Candidate>,
                              actions: seq<ActionKind>, others: seq<ActionKind>)
    requires AllPriced(score, actions) && Labels(score) && forall a :: a in actions <==> a in others
    ensures AllPriced(score, others) && Choice(x, settings, score, actions) == Choice(x, settings, score, others)
  {
    var all, rest := ScoredAll(score, actions), ScoredAll(score, others);
    ScoredAreDistinct(score, actions);
    RankedHasTheSame(all, Alphabetical);
    RankedHasTheSame(rest, Alphabetical);
    forall c ensures c in all <==> c in rest {
      ScoredAllHas(score, actions, c);
      ScoredAllHas(score, others, c);
    }
    SameMembersSameChoice(Ranked(all, Alphabetical), Ranked(rest, Alphabetical), settings, x.suspicious, x.sourceMismatch);
  }

  /** The optimizer selects only actions that policy allows, and a recovery intervention only
      at a value that is not negative and within the regret bound of every other one. */
  lemma {:induction false} ChoiceIsAllowedAndNearBest(x: Inputs, settings: OptimizerSettings, actions: seq<ActionKind>,
          other: Candidate)
    requires AllPriced(Scorer(x, settings), actions) && Choice(x, settings, Scorer(x, settings), actions).Selected?
    requires other in ScoredAll(Scorer(x, settings), actions) && IsEligible(other) && IsRecovery(other.action)
    ensures var choice := Choice(x, settings, Scorer(x, settings), actions).candidate;
            && choice.action in actions && choice.allowed && choice.probability.Some?
            && (IsRecovery(choice.action) ==>
                  choice.value >= 0 && ExactValue(choice) >= ExactValue(other) - settings.tieEpsilon - 1.5)
  {
    ScorerLabels(x, settings);
    NearBest(x, settings, Scorer(x, settings), actions, other);
  }

  lemma {:induction false} NearBest(x: Inputs, settings: OptimizerSettings, score: ActionKind -> Priced<Candidate>,
                 actions: seq<ActionKind>, other: Candidate)
    requires AllPriced(score, actions) && Labels(score) && Choice(x, settings, score, actions).Selected?
    requires other in ScoredAll(score, actions) && IsEligible(other) && IsRecovery(other.action)
    ensures var choice := Choice(x, settings, score, actions).candidate;
            && choice.action in actions && choice.allowed && choice.probability.Some?
            && (IsRecovery(choice.action) ==>
                  choice.value >= 0 && ExactValue(choice) >= ExactValue(other) - settings.tieEpsilon - 1.5)
  {
    var all := ScoredAll(score, actions);
    var ranked, choice := Ranked(all, Alphabetical), Choice(x, settings, score, actions).candidate;
    ScoredAreDistinct(score, actions);
    RankedHasTheSame(all, Alphabetical);
    NoLosingRecovery(ranked, settings, x.suspicious, x.sourceMismatch);
    ScoredAllHas(score, actions, choice);
    if IsRecovery(choice.action) {
      RegretIsBounded(ranked, settings, x.suspicious, x.sourceMismatch, other);
    }
  }
}
