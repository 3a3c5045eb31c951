/**
 * `parseFloat(x.toFixed(2))` on exact reals: the rounding to two decimals that
 * lib/api/youtube.js applies to a video's velocity and viral ratio and
 * lib/brain/EngagementScorer.js to its score.
 */
module Numbers {
  /** `r` is a whole number of hundredths. */
  predicate IsHundredths(r: real) {
    (r * 100.0).Floor as real == r * 100.0
  }

  /** `r` is the hundredth nearest to `x`, a tie going to the larger one, as `toFixed` picks it. */
  predicate NearestHundredth(r: real, x: real) {
    IsHundredths(r) && x - 0.005 < r <= x + 0.005
  }

  /** `parseFloat(x.toFixed(2))`. */
  function RoundToHundredths(x: real): (r: real)
    ensures NearestHundredth(r, x)
    ensures x >= 0.0 ==> r >= 0.0
  {
    var n := (x * 100.0 + 0.5).Floor;
    assert (n as real / 100.0) * 100.0 == n as real;
    n as real / 100.0
  }

  /** There is one nearest hundredth: any hundredth within half a hundredth of `x` is the rounded value. */
  lemma NearestHundredthUnique(r: real, x: real)
    requires NearestHundredth(r, x)
    ensures r == RoundToHundredths(x)
  {
    var a := (r * 100.0).Floor;
    var y := x * 100.0 + 0.5;
    var n := y.Floor;
    assert a as real == r * 100.0;
    assert y - 1.0 < a as real <= y;
    assert n as real <= y < n as real + 1.0;
    assert a == n;
  }

  /** Rounding keeps order: a larger value never rounds to a smaller hundredth. */
  lemma RoundMonotone(x: real, y: real)
    requires x <= y
    ensures RoundToHundredths(x) <= RoundToHundredths(y)
  {
    var m := (x * 100.0 + 0.5).Floor;
    var n := (y * 100.0 + 0.5).Floor;
    assert m as real <= y * 100.0 + 0.5 < n as real + 1.0;
    assert m <= n;
  }
}
