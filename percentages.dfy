/** Scores shown as percentages, and threshold tests on them done exactly
    with integers. */
module Percentages {
  /** `(score / total) * 100`, as the views compute it. */
  function Percentage(score: nat, total: nat): (p: real)
    requires total > 0
    ensures p * total as real == 100.0 * score as real
    ensures 0.0 <= p && (score <= total ==> p <= 100.0)
  {
    var q := score as real / total as real;
    assert q * total as real == score as real;
    q * 100.0
  }

  /** The percentage reaches `c` exactly when `100 * score` reaches `c * total`. */
  lemma PercentageAtLeast(score: nat, total: nat, c: nat)
    requires total > 0
    ensures Percentage(score, total) >= c as real <==> 100 * score >= c * total
  {
    var p := score as real / total as real;
    assert p * total as real == score as real;
    assert Percentage(score, total) * total as real == (100 * score) as real;
    if Percentage(score, total) >= c as real {
      assert Percentage(score, total) * total as real >= c as real * total as real;
    } else {
      assert Percentage(score, total) * total as real < c as real * total as real;
    }
  }
}
