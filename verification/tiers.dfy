/** The three-way colour classification the interview panel and the feedback
    card apply to scores out of ten: 7 and above is strong (green), 4 and
    above is middling (amber), anything else, `NaN` included, is weak (red). */
module Tiers {
  import opened Wrappers

  datatype Tier = Strong | Middle | Weak

  /** `x >= 7 ? strong : x >= 4 ? middle : weak`; `None` is `NaN`, for which
      both comparisons are false. */
  function Classify(x: Option<int>): (t: Tier)
    ensures t == Strong <==> x.Some? && x.value >= 7
    ensures t == Middle <==> x.Some? && 4 <= x.value < 7
    ensures t == Weak <==> x.None? || x.value < 4
  {
    match x
    case None => Weak
    case Some(v) => if v >= 7 then Strong else if v >= 4 then Middle else Weak
  }

  /** The same thresholds applied to a number given in tenths. */
  function ClassifyTenths(x: int): (t: Tier)
    ensures t == Strong <==> x >= 70
    ensures t == Middle <==> 40 <= x < 70
  {
    if x >= 70 then Strong else if x >= 40 then Middle else Weak
  }

  /** Scaling a whole score to tenths does not change its tier. */
  lemma ClassifyTenthsOfWhole(x: int)
    ensures ClassifyTenths(10 * x) == Classify(Some(x))
  {
  }

  /** Tiers are monotone: a higher score never gets a worse tier. */
  lemma ClassifyMonotone(x: int, y: int)
    requires x <= y
    ensures Classify(Some(x)) == Strong ==> Classify(Some(y)) == Strong
    ensures Classify(Some(x)) == Middle ==> Classify(Some(y)) != Weak
  {
  }

  /** `a / b >= k` exactly when `a >= k * b`, for a positive divisor. */
  lemma DivAtLeast(a: int, b: int, k: int)
    requires b > 0
    ensures a / b >= k <==> a >= k * b
  {
    var q, r := a / b, a % b;
    assert a == q * b + r && 0 <= r < b;
    if q >= k {
      assert q * b >= k * b by { MulMonotone(k, q, b); }
    } else {
      assert (q + 1) * b <= k * b by { MulMonotone(q + 1, k, b); }
    }
  }

  lemma MulMonotone(x: int, y: int, b: int)
    requires x <= y && b > 0
    ensures x * b <= y * b
  {
    assert y * b - x * b == (y - x) * b;
  }
}
