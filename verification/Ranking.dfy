/** Selecting an action: the highest expected value within a tie band, by friction and cost;
    a control strategy when no recovery pays. */
module Ranking {
  import opened Domain
  import opened Money
  import opened Erv

  datatype Candidate = Candidate(
    action: ActionKind,
    probability: Option<real>,
    missing: bool,
    amountAtRisk: nat,
    costs: Costs,
    value: int,
    allowed: bool,
    requiresApproval: bool)

  /** An empty tie band makes the program index an empty list. */
  datatype Selection = Selected(candidate: Candidate) | NothingRemains | IndexError

  predicate IsRecovery(a: ActionKind) {
    !a.Escalate? && !a.DoNothing?
  }

  function FrictionRank(a: ActionKind): nat {
    match a
    case DoNothing => 0
    case RetryLater => 1
    case SendPaymentLink => 2
    case SendReminder => 3
    case RetryNow => 4
    case OfferDiscount => 5
    case Escalate => 6
  }

  function SimplicityRank(a: ActionKind): nat {
    match a
    case DoNothing => 0
    case SendReminder => 1
    case RetryLater => 2
    case SendPaymentLink => 3
    case RetryNow => 4
    case OfferDiscount => 5
    case Escalate => 6
  }

  /** _tie_key, compared from left to right. The action's name, its last part, never decides:
      equal friction already means the same action. */
  predicate Before(a: Candidate, b: Candidate) {
    var fa, fb := FrictionRank(a.action), FrictionRank(b.action);
    if fa != fb then fa < fb
    else if a.costs.Direct() != b.costs.Direct() then a.costs.Direct() < b.costs.Direct()
    else if a.costs.penalty != b.costs.penalty then a.costs.penalty < b.costs.penalty
    else SimplicityRank(a.action) < SimplicityRank(b.action)
  }

  predicate IsEligible(c: Candidate) {
    c.allowed && !c.missing && c.probability.Some?
  }

  function Filter(pool: seq<Candidate>, keep: Candidate -> bool): (kept: seq<Candidate>)
    ensures forall c :: c in kept <==> c in pool && keep(c)
    ensures kept == [] <==> forall c <- pool :: !keep(c)
  {
    if pool == [] then []
    else
      var n := |pool| - 1;
      assert pool == pool[..n] + [pool[n]];
      Filter(pool[..n], keep) + if keep(pool[n]) then [pool[n]] else []
  }

  function Eligible(candidates: seq<Candidate>): seq<Candidate> {
    Filter(candidates, (c: Candidate) => IsEligible(c))
  }

  /* ----- Sorting ----- */

  /** Places c behind everything whose key is at least as high. */
  function Inserted(sorted: seq<Candidate>, c: Candidate, key: Candidate -> int): (r: seq<Candidate>)
    ensures multiset(r) == multiset(sorted) + multiset{c}
    ensures forall x <- r :: x in sorted || x == c
  {
    if sorted == [] || key(sorted[|sorted| - 1]) >= key(c) then sorted + [c]
    else
      assert sorted == sorted[..|sorted| - 1] + [sorted[|sorted| - 1]];
      Inserted(sorted[..|sorted| - 1], c, key) + [sorted[|sorted| - 1]]
  }

  /** The stable sort by falling key. */
  function Ranked(pool: seq<Candidate>, key: Candidate -> int): (r: seq<Candidate>)
    ensures multiset(r) == multiset(pool)
  {
    if pool == [] then []
    else
      assert pool == pool[..|pool| - 1] + [pool[|pool| - 1]];
      Inserted(Ranked(pool[..|pool| - 1], key), pool[|pool| - 1], key)
  }

  ghost predicate Falling(cs: seq<Candidate>, key: Candidate -> int) {
    forall i, j | 0 <= i < j < |cs| :: key(cs[i]) >= key(cs[j])
  }

  lemma {:induction false} FallingThen(front: seq<Candidate>, last: Candidate, key: Candidate -> int)
    requires Falling(front, key) && forall x <- front :: key(x) >= key(last)
    ensures Falling(front + [last], key)
  {
  }

  lemma {:induction false} InsertedIsFalling(sorted: seq<Candidate>, c: Candidate, key: Candidate -> int)
    requires Falling(sorted, key)
    ensures Falling(Inserted(sorted, c, key), key)
  {
    if sorted == [] || key(sorted[|sorted| - 1]) >= key(c) {
      FallingThen(sorted, c, key);
    } else {
      var front, last := sorted[..|sorted| - 1], sorted[|sorted| - 1];
      InsertedIsFalling(front, c, key);
      FallingThen(Inserted(front, c, key), last, key);
    }
  }

  lemma {:induction false} RankedIsFalling(pool: seq<Candidate>, key: Candidate -> int)
    ensures Falling(Ranked(pool, key), key)
  {
    if pool != [] {
      RankedIsFalling(pool[..|pool| - 1], key);
      InsertedIsFalling(Ranked(pool[..|pool| - 1], key), pool[|pool| - 1], key);
    }
  }

  lemma {:induction false} RankedHasTheSame(pool: seq<Candidate>, key: Candidate -> int)
    ensures |Ranked(pool, key)| == |pool| && forall c :: c in Ranked(pool, key) <==> c in pool
  {
    assert |multiset(Ranked(pool, key))| == |multiset(pool)|;
    forall c ensures c in Ranked(pool, key) <==> c in pool {
      assert c in multiset(Ranked(pool, key)) <==> c in multiset(pool);
    }
  }

  function Worth(c: Candidate): int {
    c.value
  }

  /** The first of the least candidates, which is where sorting by the tie key begins. */
  function First(cs: seq<Candidate>): (c: Candidate)
    requires cs != []
    ensures c in cs && forall x <- cs :: !Before(x, c)
  {
    var n := |cs| - 1;
    if n == 0 then cs[0]
    else
      assert cs == cs[..n] + [cs[n]];
      var front := First(cs[..n]);
      if Before(cs[n], front) then cs[n] else front
  }

  /* ----- Selection ----- */

  function Tied(ranked: seq<Candidate>, best: Candidate, epsilon: int): seq<Candidate> {
    Filter(ranked, (c: Candidate) => best.value - c.value <= epsilon)
  }

  /** _max_with_ties. */
  function MaxWithTies(pool: seq<Candidate>, settings: OptimizerSettings): Selection
    requires pool != []
  {
    RankedHasTheSame(pool, Worth);
    var ranked, epsilon := Ranked(pool, Worth), RoundHalfEven(settings.tieEpsilon);
    var tied := Tied(ranked, ranked[0], epsilon);
    if tied == [] then IndexError else Selected(First(tied))
  }

  /** The last candidate with an action, as a dictionary keeps it. */
  function Lookup(cs: seq<Candidate>, a: ActionKind): (found: Option<Candidate>)
    ensures found.Some? ==> found.value in cs && found.value.action == a
    ensures found.None? <==> forall c <- cs :: c.action != a
  {
    if cs == [] then None
    else if cs[|cs| - 1].action == a then Some(cs[|cs| - 1])
    else
      assert cs == cs[..|cs| - 1] + [cs[|cs| - 1]];
      Lookup(cs[..|cs| - 1], a)
  }

  function Controls(eligible: seq<Candidate>): seq<Candidate> {
    Filter(eligible, (c: Candidate) => !IsRecovery(c.action))
  }

  /** _select_control. */
  function SelectControl(eligible: seq<Candidate>, suspicious: bool): Selection {
    var nothing, escalate := Lookup(eligible, DoNothing), Lookup(eligible, Escalate);
    if suspicious && escalate.Some? then Selected(escalate.value)
    else if nothing.Some? then Selected(nothing.value)
    else if escalate.Some? then Selected(escalate.value)
    else
      var control := Controls(eligible);
      if control != [] then Selected(control[0]) else NothingRemains
  }

  function Paying(eligible: seq<Candidate>): seq<Candidate> {
    Filter(eligible, (c: Candidate) => IsRecovery(c.action) && c.value >= 0)
  }

  function SelectAction(candidates: seq<Candidate>, settings: OptimizerSettings, suspicious: bool,
          sourceMismatch: bool): Selection {
    var eligible := Eligible(candidates);
    if eligible == [] then NothingRemains
    else if Paying(eligible) != [] then MaxWithTies(Paying(eligible), settings)
    else SelectControl(eligible, suspicious || sourceMismatch)
  }

  /* ----- What a selection means ----- */

  /** A recovery intervention that may run and does not lose money. */
  predicate Contends(candidates: seq<Candidate>, c: Candidate) {
    && c in candidates && MayRun(c)
    && !c.action.Escalate? && !c.action.DoNothing? && c.value >= 0
  }

  /** Policy allows the candidate, and a probability is known for it. */
  predicate MayRun(c: Candidate) {
    c.allowed && !c.missing && c.probability.Some?
  }

  ghost predicate InBand(candidates: seq<Candidate>, c: Candidate, epsilon: int) {
    Contends(candidates, c) && forall x <- candidates :: Contends(candidates, x) ==> x.value - c.value <= epsilon
  }

  ghost predicate SomeContend(candidates: seq<Candidate>) {
    exists c <- candidates :: Contends(candidates, c)
  }

  lemma {:induction false} BandIsMaxWithTies(pool: seq<Candidate>, settings: OptimizerSettings)
    requires pool != []
    ensures var epsilon, picked := RoundHalfEven(settings.tieEpsilon), MaxWithTies(pool, settings);
            if epsilon < 0 then picked == IndexError
            else
              && picked.Selected? && picked.candidate in pool
              && (forall x <- pool :: x.value - picked.candidate.value <= epsilon)
              && (forall y <- pool :: (forall x <- pool :: x.value - y.value <= epsilon) ==> !Before(y, picked.candidate))
  {
    RankedHasTheSame(pool, Worth);
    RankedIsFalling(pool, Worth);
    var ranked, epsilon := Ranked(pool, Worth), RoundHalfEven(settings.tieEpsilon);
    var best := ranked[0];
    var tied := Tied(ranked, best, epsilon);
    assert best in pool;
    assert tied == [] || tied[0] in tied;
    forall x | x in pool ensures x.value <= best.value {
      assert x in ranked;
    }
    if epsilon >= 0 {
      assert best in tied;
      forall y | y in pool && forall x <- pool :: x.value - y.value <= epsilon ensures y in tied {
        assert y in ranked;
      }
    }
  }

  /** A recovery intervention is selected exactly when one contends and the tie band is not
      negative; then the choice contends, is within the band of the highest value, and no
      contender in the band comes before it. */
  lemma {:induction false} RecoverySelection(candidates: seq<Candidate>, settings: OptimizerSettings, suspicious: bool,
          sourceMismatch: bool)
    requires SomeContend(candidates)
    ensures var epsilon, s := RoundHalfEven(settings.tieEpsilon),
        SelectAction(candidates, settings, suspicious, sourceMismatch);
            if epsilon < 0 then s == IndexError
            else s.Selected? && InBand(candidates, s.candidate, epsilon)
                 && forall y <- candidates :: InBand(candidates, y, epsilon) ==> !Before(y, s.candidate)
  {
    var eligible := Eligible(candidates);
    var pool := Paying(eligible);
    assert forall c :: c in pool <==> Contends(candidates, c);
    var c :| c in candidates && Contends(candidates, c);
    assert c in pool && c in eligible;
    BandIsMaxWithTies(pool, settings);
    assert forall y <- candidates :: InBand(candidates, y, RoundHalfEven(settings.tieEpsilon)) ==> y in pool;
  }

  /** Without a contender, a control strategy is selected if one is eligible: escalation of a
      suspicious case, else doing nothing, else escalation. The last resort of the program,
      the first control candidate, is never reached. */
  lemma {:induction false} ControlSelection(candidates: seq<Candidate>, settings: OptimizerSettings, suspicious: bool,
          sourceMismatch: bool)
    requires !SomeContend(candidates)
    ensures var eligible, s := Eligible(candidates), SelectAction(candidates, settings, suspicious, sourceMismatch);
            var nothing, escalate := Lookup(eligible, DoNothing), Lookup(eligible, Escalate);
            s == if escalate.Some? && (suspicious || sourceMismatch || nothing.None?) then Selected(escalate.value)
                 else if nothing.Some? then Selected(nothing.value)
                 else NothingRemains
  {
    var eligible := Eligible(candidates);
    assert forall c <- eligible :: !(IsRecovery(c.action) && c.value >= 0) by {
      forall c | c in eligible ensures !(IsRecovery(c.action) && c.value >= 0) {
        assert !Contends(candidates, c);
      }
    }
  }

  /** No recovery action of negative value is ever selected. */
  lemma {:induction false} NoLosingRecovery(candidates: seq<Candidate>, settings: OptimizerSettings, suspicious: bool,
          sourceMismatch: bool)
    ensures var s := SelectAction(candidates, settings, suspicious, sourceMismatch);
            s.Selected? ==>
              && s.candidate in candidates && MayRun(s.candidate)
              && (s.candidate.action.Escalate? || s.candidate.action.DoNothing? || s.candidate.value >= 0)
  {
    if SomeContend(candidates) {
      RecoverySelection(candidates, settings, suspicious, sourceMismatch);
    } else {
      ControlSelection(candidates, settings, suspicious, sourceMismatch);
    }
  }

  /* ----- Order independence ----- */

  ghost predicate DistinctActions(candidates: seq<Candidate>) {
    forall a, b | a in candidates && b in candidates && a.action == b.action :: a == b
  }

  /** From the least to the greatest nuisance for the customer. */
  const FRICTION_ORDER := [DoNothing, RetryLater, SendPaymentLink, SendReminder, RetryNow, OfferDiscount, Escalate]

  predicate Gentler(a: ActionKind, b: ActionKind) {
    exists i, j | 0 <= i < j < |FRICTION_ORDER| :: FRICTION_ORDER[i] == a && FRICTION_ORDER[j] == b
  }

  /** The tie key puts the gentler action first, and candidates of the same action by what they
      cost directly, then by their penalty; it never comes to simplicity or to the name. */
  lemma TieOrder(a: Candidate, b: Candidate)
    ensures var da, db := a.costs.intervention + a.costs.communication + a.costs.discount,
                b.costs.intervention + b.costs.communication + b.costs.discount;
            Before(a, b) <==>
              || Gentler(a.action, b.action)
              || (a.action == b.action && (da < db || (da == db && a.costs.penalty < b.costs.penalty)))
  {
    FrictionIsOrder(a.action, b.action);
  }

  lemma FrictionIsOrder(a: ActionKind, b: ActionKind)
    ensures Gentler(a, b) <==> FrictionRank(a) < FrictionRank(b)
    ensures a != b ==> FrictionRank(a) != FrictionRank(b)
  {
    assert FRICTION_ORDER[FrictionRank(a)] == a && FRICTION_ORDER[FrictionRank(b)] == b;
    assert forall i | 0 <= i < |FRICTION_ORDER| :: FrictionRank(FRICTION_ORDER[i]) == i;
  }

  lemma EqualFrictionIsSameAction(a: ActionKind, b: ActionKind)
    ensures FrictionRank(a) == FrictionRank(b) <==> a == b
  {
  }

  /** For recovery, the selected candidate is the only one in the band that nothing precedes. */
  lemma {:induction false} LeastIsUnique(candidates: seq<Candidate>, a: Candidate, b: Candidate, epsilon: int)
    requires DistinctActions(candidates)
    requires InBand(candidates, a, epsilon) && InBand(candidates, b, epsilon)
    requires !Before(a, b) && !Before(b, a)
    ensures a == b
  {
    EqualFrictionIsSameAction(a.action, b.action);
  }

  lemma {:induction false} LookupIsUnique(cs: seq<Candidate>, ds: seq<Candidate>, a: ActionKind)
    requires DistinctActions(cs) && forall c :: c in cs <==> c in ds
    ensures Lookup(cs, a) == Lookup(ds, a)
  {
    var x, y := Lookup(cs, a), Lookup(ds, a);
    if x.Some? {
      assert x.value in ds;
    }
    if y.Some? {
      assert y.value in cs;
    }
  }

  /** Selection is order independent: candidates with distinct actions give the same choice in
      every order. */
  lemma {:induction false} OrderDoesNotMatter(candidates: seq<Candidate>, permuted: seq<Candidate>,
          settings: OptimizerSettings,
                           suspicious: bool, sourceMismatch: bool)
    requires DistinctActions(candidates) && multiset(permuted) == multiset(candidates)
    ensures SelectAction(permuted, settings, suspicious, sourceMismatch)
        == SelectAction(candidates, settings, suspicious, sourceMismatch)
  {
    forall c ensures c in permuted <==> c in candidates {
      assert c in multiset(permuted) <==> c in multiset(candidates);
    }
    SameMembersSameChoice(candidates, permuted, settings, suspicious, sourceMismatch);
  }

  lemma {:induction false} SameMembersSameChoice(candidates: seq<Candidate>, others: seq<Candidate>,
          settings: OptimizerSettings,
                              suspicious: bool, sourceMismatch: bool)
    requires DistinctActions(candidates) && forall c :: c in others <==> c in candidates
    ensures SelectAction(others, settings, suspicious, sourceMismatch)
        == SelectAction(candidates, settings, suspicious, sourceMismatch)
  {
    var epsilon := RoundHalfEven(settings.tieEpsilon);
    assert forall c :: Contends(others, c) <==> Contends(candidates, c);
    if SomeContend(candidates) {
      assert SomeContend(others);
      RecoverySelection(candidates, settings, suspicious, sourceMismatch);
      RecoverySelection(others, settings, suspicious, sourceMismatch);
      if epsilon >= 0 {
        var a := SelectAction(candidates, settings, suspicious, sourceMismatch).candidate;
        var b := SelectAction(others, settings, suspicious, sourceMismatch).candidate;
        assert InBand(candidates, b, epsilon) && InBand(others, a, epsilon);
        LeastIsUnique(candidates, a, b, epsilon);
      }
    } else {
      assert !SomeContend(others);
      ControlSelection(candidates, settings, suspicious, sourceMismatch);
      ControlSelection(others, settings, suspicious, sourceMismatch);
      LookupIsUnique(Eligible(candidates), Eligible(others), DoNothing);
      LookupIsUnique(Eligible(candidates), Eligible(others), Escalate);
    }
  }

  /* ----- Regret ----- */

  /** The candidate's value is the expected net recovery of its probability and costs. */
  ghost predicate IsPriced(c: Candidate) {
    c.probability.Some? && 0.0 <= c.probability.value <= 1.0
    && ExpectedNetRecovery(c.probability.value, c.amountAtRisk, c.costs) == Price(c.value)
  }

  function ExactValue(c: Candidate): real
    requires c.probability.Some?
  {
    ExactNetRecovery(c.probability.value, c.amountAtRisk, c.costs)
  }

  /** Regret bound: the exact value of a selected recovery intervention is within the tie
      epsilon and one and a half paise of that of every eligible one. */
  lemma {:induction false} RegretIsBounded(candidates: seq<Candidate>, settings: OptimizerSettings, suspicious: bool,
          sourceMismatch: bool,
                        other: Candidate)
    requires forall c <- candidates :: IsEligible(c) ==> IsPriced(c)
    requires SelectAction(candidates, settings, suspicious, sourceMismatch).Selected?
    requires var choice := SelectAction(candidates, settings, suspicious, sourceMismatch).candidate;
             choice in candidates && IsEligible(choice) && IsRecovery(choice.action)
    requires other in candidates && IsEligible(other) && IsRecovery(other.action)
    ensures var choice := SelectAction(candidates, settings, suspicious, sourceMismatch).candidate;
            choice.value >= 0 && ExactValue(other) - ExactValue(choice) <= settings.tieEpsilon + 1.5
  {
    var choice := SelectAction(candidates, settings, suspicious, sourceMismatch).candidate;
    NoLosingRecovery(candidates, settings, suspicious, sourceMismatch);
    assert Contends(candidates, choice);
    RecoverySelection(candidates, settings, suspicious, sourceMismatch);
    ErvIsNearExact(choice.probability.value, choice.amountAtRisk, choice.costs);
    ErvIsNearExact(other.probability.value, other.amountAtRisk, other.costs);
    assert other.value - choice.value <= RoundHalfEven(settings.tieEpsilon);
  }
}
