/** Rounding of money to whole paise, half to even. */
module Money {
  /** The whole number nearest to x; when two are equally near, the even one. */
  function RoundHalfEven(x: real): (r: int)
    ensures -0.5 <= r as real - x <= 0.5
    ensures (r as real - x == 0.5 || x - r as real == 0.5) ==> r % 2 == 0
  {
    var low := x.Floor;
    var rest := x - low as real;
    if rest < 0.5 then low
    else if rest > 0.5 then low + 1
    else if low % 2 == 0 then low
    else low + 1
  }

  /** The contract of RoundHalfEven leaves exactly one result. */
  lemma RoundingIsUnique(x: real, r: int)
    requires -0.5 <= r as real - x <= 0.5
    requires (r as real - x == 0.5 || x - r as real == 0.5) ==> r % 2 == 0
    ensures r == RoundHalfEven(x)
  {
    assert -1.0 <= r as real - RoundHalfEven(x) as real <= 1.0;
  }

  lemma RoundingIsMonotone(x: real, y: real)
    requires x <= y
    ensures RoundHalfEven(x) <= RoundHalfEven(y)
  {
    assert RoundHalfEven(x) as real - RoundHalfEven(y) as real <= 1.0;
  }

  lemma RoundingKeepsWholePaise(n: int)
    ensures RoundHalfEven(n as real) == n
  {
  }

  /** The largest whole amount that rounding can reach from at most x. */
  function RoundHalfUp(x: real): int {
    (x + 0.5).Floor
  }

  lemma RoundingStaysWithin(spent: int, x: real, limit: real)
    requires spent as real + x <= limit
    ensures spent + RoundHalfEven(x) <= RoundHalfUp(limit)
  {
    var r := RoundHalfEven(x);
    assert (spent + r) as real <= limit + 0.5;
  }

  /** as_money refuses a negative amount; signed_money does not. */
  predicate IsMoney(x: real) {
    RoundHalfEven(x) >= 0
  }
}
