/** `Math.round(num / den)` for a non-negative numerator and a positive
    denominator, the rounding the application applies to every accuracy,
    percentage and average it displays. JavaScript computes it in floating
    point; this module computes the exact rational value rounded half up,
    which is what the floating-point expression approximates. */
module Percent {

  /** `Math.round(num / den)`: the integer nearest to num/den, halves rounded up. */
  function RoundRatio(num: nat, den: nat): (r: nat)
    requires den > 0
    ensures 2 * den * r <= 2 * num + den < 2 * den * (r + 1)
  {
    var q := (2 * num + den) / (2 * den);
    assert 2 * num + den == 2 * den * q + (2 * num + den) % (2 * den);
    q
  }

  /** `Math.round((part / whole) * 100)`. */
  function RoundedPercent(part: nat, whole: nat): (r: nat)
    requires whole > 0
    ensures 2 * whole * r <= 200 * part + whole < 2 * whole * (r + 1)
  {
    RoundRatio(100 * part, whole)
  }

  /** Helper: from a*b < a*c with a > 0 conclude b < c. */
  lemma CancelLess(a: nat, b: nat, c: nat)
    requires a > 0 && a * b < a * c
    ensures b < c
  {
  }

  /** The rounded percentage reaches a mark exactly when
      200 * part + whole >= 2 * mark * whole. */
  lemma PercentReaches(part: nat, whole: nat, mark: nat)
    requires whole > 0
    ensures RoundedPercent(part, whole) >= mark <==> 200 * part + whole >= 2 * mark * whole
  {
    var r := RoundedPercent(part, whole);
    if r >= mark {
      MulLe(2 * whole, mark, r);
    }
    if 200 * part + whole >= 2 * mark * whole {
      assert 2 * whole * mark < 2 * whole * (r + 1);
      CancelLess(2 * whole, mark, r + 1);
    }
  }

  /** Multiplying by a non-negative number keeps the order. */
  lemma MulLe(a: nat, b: nat, c: nat)
    requires b <= c
    ensures a * b <= a * c
  {
  }

  /** The rounded mean of values that all lie in [lo, hi] lies in [lo, hi]. */
  lemma RoundRatioBetween(num: nat, den: nat, lo: nat, hi: nat)
    requires den > 0
    requires den * lo <= num <= den * hi
    ensures lo <= RoundRatio(num, den) <= hi
  {
    var r := RoundRatio(num, den);
    // 2*den*lo <= 2*num < 2*num + den < 2*den*(r + 1), hence lo < r + 1
    CancelLess(2 * den, lo, r + 1);
    // 2*den*r <= 2*num + den <= 2*den*hi + den < 2*den*(hi + 1), hence r < hi + 1
    CancelLess(2 * den, r, hi + 1);
  }

  /** A share of a whole rounds to a percentage in [0, 100]. */
  lemma PercentAtMost100(part: nat, whole: nat)
    requires 0 < whole && part <= whole
    ensures RoundedPercent(part, whole) <= 100
  {
    RoundRatioBetween(100 * part, whole, 0, 100);
  }

  /** Rounding the percentage is monotone in the part. */
  lemma PercentMonotone(p1: nat, p2: nat, whole: nat)
    requires 0 < whole && p1 <= p2
    ensures RoundedPercent(p1, whole) <= RoundedPercent(p2, whole)
  {
    var r1, r2 := RoundedPercent(p1, whole), RoundedPercent(p2, whole);
    // 2*whole*r1 <= 200*p1 + whole <= 200*p2 + whole < 2*whole*(r2 + 1)
    CancelLess(2 * whole, r1, r2 + 1);
  }

  /** For fewer than 200 items the rounded share is 100 exactly when every
      item is counted; from 200 items on, 199 of 200 already rounds to 100
      (see NearlyAllRoundsTo100). */
  lemma PercentIs100Iff(part: nat, whole: nat)
    requires 0 < whole < 200 && part <= whole
    ensures RoundedPercent(part, whole) == 100 <==> part == whole
  {
    var r := RoundedPercent(part, whole);
    if part == whole {
      PercentAtMost100(part, whole);
      // 200*whole + whole < 2*whole*(r + 1), so r + 1 > 100
      CancelLess(2 * whole, 100, r + 1);
    } else {
      // 200*part + whole <= 200*whole - 200 + whole < 2*whole*100 since whole < 200
      assert 200 * part + whole < 2 * whole * 100;
      CancelLess(2 * whole, r, 100);
    }
  }

  /** The bound on PercentIs100Iff cannot be dropped. */
  lemma NearlyAllRoundsTo100()
    ensures RoundedPercent(199, 200) == 100
  {
  }

  /** The exact share when the part is a multiple of a hundredth of the whole. */
  lemma PercentOfExact(part: nat, whole: nat, pct: nat)
    requires 0 < whole && 100 * part == pct * whole
    ensures RoundedPercent(part, whole) == pct
  {
    var r := RoundedPercent(part, whole);
    assert 200 * part + whole == 2 * whole * pct + whole;
    CancelLess(2 * whole, r, pct + 1);
    CancelLess(2 * whole, pct, r + 1);
  }
}
