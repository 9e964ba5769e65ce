/**
 * The calibration curve that turns a cosine similarity into a grade
 * (`calculate_final_score`). Similarities are exact rationals here, so the
 * model is the curve the constants describe, not its floating-point image.
 */
module Calibration {

  /** The piecewise-linear percentage of the maximum score, before clamping. */
  function Percentage(similarity: real): real {
    if similarity >= 0.85 then 0.90 + (similarity - 0.85) * 0.67
    else if similarity >= 0.70 then 0.70 + (similarity - 0.70) * 1.33
    else if similarity >= 0.55 then 0.50 + (similarity - 0.55) * 1.33
    else if similarity >= 0.40 then 0.30 + (similarity - 0.40) * 1.33
    else similarity * 0.75
  }

  /** Python's `min(a, b)` on numbers. */
  function Min(a: real, b: real): (r: real)
    ensures r <= a && r <= b && (r == a || r == b)
  {
    if b < a then b else a
  }

  /**
   * Python's `round(x)`: the nearest integer, and the even one of the two
   * when `x` lies exactly halfway between them.
   */
  function RoundHalfEven(x: real): (r: int)
    ensures x - 0.5 <= r as real <= x + 0.5
    ensures (r as real - x == 0.5 || x - r as real == 0.5) ==> r % 2 == 0
  {
    var f := x.Floor;
    var frac := x - f as real;
    if frac < 0.5 then f
    else if frac > 0.5 then f + 1
    else if f % 2 == 0 then f
    else f + 1
  }

  /** Scaling by a non-negative maximum and rounding keeps the order of two fractions. */
  lemma ScaleMonotone(a: real, b: real, maxScore: int)
    requires a <= b && maxScore >= 0
    ensures Scale(a, maxScore) <= Scale(b, maxScore)
  {
    var am, bm := a * maxScore as real, b * maxScore as real;
    assert Scale(a, maxScore) == RoundHalfEven(am);
    assert Scale(b, maxScore) == RoundHalfEven(bm);
    MulMonotone(a, b, maxScore as real);
    RoundMonotone(am, bm);
  }

  /** Multiplying by a non-negative factor keeps the order. */
  lemma MulMonotone(a: real, b: real, m: real)
    requires a <= b && m >= 0.0
    ensures a * m <= b * m
  {
    assert (b - a) * m >= 0.0;
  }

  /** `calculate_final_score`: clamp the percentage at 1.0, scale by the maximum, round. */
  function FinalScore(similarity: real, maxScore: int): int {
    Scale(Clamped(similarity), maxScore)
  }

  /** `round(fraction * max_score)`. */
  function Scale(fraction: real, maxScore: int): int {
    RoundHalfEven(fraction * maxScore as real)
  }

  /** `min(percentage, 1.0)`: the percentage with its upper clamp. */
  function Clamped(similarity: real): (r: real)
    ensures r <= 1.0
    ensures r == 1.0 || r == Percentage(similarity)
    ensures r <= Percentage(similarity)
  {
    Min(Percentage(similarity), 1.0)
  }

  /** The clamp keeps the curve rising. */
  lemma ClampedMonotone(s1: real, s2: real)
    requires s1 <= s2
    ensures Clamped(s1) <= Clamped(s2)
  {
    PercentageMonotone(s1, s2);
  }

  /** Rounding never reverses the order of two numbers. */
  lemma RoundMonotone(x: real, y: real)
    requires x <= y
    ensures RoundHalfEven(x) <= RoundHalfEven(y)
  {
    if x < y {
      var fx, fy := x.Floor, y.Floor;
      if fx < fy {
        assert RoundHalfEven(x) <= fx + 1 <= fy <= RoundHalfEven(y);
      }
    }
  }

  /** An integer rounds to itself. */
  lemma RoundInteger(n: int)
    ensures RoundHalfEven(n as real) == n
  {
  }

  /** Each of the three slopes is positive and each jump at a breakpoint goes up, so the curve rises. */
  lemma PercentageMonotone(s1: real, s2: real)
    requires s1 <= s2
    ensures Percentage(s1) <= Percentage(s2)
  {
  }

  /** The grade bands of the curve: which similarity range lands in which percentage range. */
  lemma PercentageBands(s: real)
    ensures s >= 0.85 ==> 0.90 <= Percentage(s) && (s <= 1.0 ==> Percentage(s) <= 1.0005)
    ensures 0.70 <= s < 0.85 ==> 0.70 <= Percentage(s) < 0.8995
    ensures 0.55 <= s < 0.70 ==> 0.50 <= Percentage(s) < 0.6995
    ensures 0.40 <= s < 0.55 ==> 0.30 <= Percentage(s) < 0.4995
    ensures 0.0 <= s < 0.40 ==> 0.0 <= Percentage(s) < 0.30
    ensures s < 0.0 ==> Percentage(s) < 0.0
  {
  }

  /**
   * The curve is not continuous: just below 0.85, 0.70 and 0.55 it
   * approaches 0.8995, 0.6995 and 0.4995 (0.15 * 1.33 = 0.1995), while at
   * the breakpoint it is 0.90, 0.70 and 0.50 — an upward jump of 0.0005.
   * It is continuous at 0.40, and above 1.0 the clamp takes over.
   */
  lemma Breakpoints(d: real)
    requires 0.0 < d <= 0.15
    ensures Percentage(0.85) == 0.90 && Percentage(0.85 - d) == 0.8995 - 1.33 * d
    ensures Percentage(0.70) == 0.70 && Percentage(0.70 - d) == 0.6995 - 1.33 * d
    ensures Percentage(0.55) == 0.50 && Percentage(0.55 - d) == 0.4995 - 1.33 * d
    ensures Percentage(0.40) == 0.30 && Percentage(0.40 - d) == 0.30 - 0.75 * d
    ensures Percentage(1.0) == 1.0005
  {
  }

  /** For a non-negative maximum the score never exceeds it, and a non-negative similarity never scores below zero. */
  lemma FinalScoreBounds(similarity: real, maxScore: int)
    requires maxScore >= 0
    ensures FinalScore(similarity, maxScore) <= maxScore
    ensures similarity >= 0.0 ==> FinalScore(similarity, maxScore) >= 0
  {
    var c := Clamped(similarity);
    ScaleMonotone(c, 1.0, maxScore);
    RoundInteger(maxScore);
    if similarity >= 0.0 {
      PercentageBands(similarity);
      ScaleMonotone(0.0, c, maxScore);
      RoundInteger(0);
    }
  }

  /** A similarity of 0.0 (the value every failure degrades to) scores 0 whatever the maximum. */
  lemma ZeroSimilarityScoresZero(maxScore: int)
    ensures FinalScore(0.0, maxScore) == 0
  {
    assert Clamped(0.0) == 0.0;
    assert Clamped(0.0) * maxScore as real == 0.0;
    RoundInteger(0);
  }

  /** There is no lower clamp: a negative similarity can give a negative score. */
  lemma NegativeSimilarityScoresBelowZero()
    ensures FinalScore(-1.0, 10) == -8
  {
    assert Percentage(-1.0) == -0.75;
    assert Clamped(-1.0) * 10.0 == -7.5;
    assert (-7.5).Floor == -8;
  }

  /** For a fixed non-negative maximum, a higher similarity never gets a lower score. */
  lemma FinalScoreMonotone(s1: real, s2: real, maxScore: int)
    requires s1 <= s2 && maxScore >= 0
    ensures FinalScore(s1, maxScore) <= FinalScore(s2, maxScore)
  {
    ClampedMonotone(s1, s2);
    ScaleMonotone(Clamped(s1), Clamped(s2), maxScore);
  }

  /** Worked values of the curve. */
  lemma Examples()
    ensures FinalScore(0.85, 20) == 18
    ensures FinalScore(1.0, 20) == 20
    ensures FinalScore(0.70, 10) == 7
    ensures FinalScore(0.0, 50) == 0
    ensures FinalScore(0.475, 100) == 40
  {
    assert Clamped(0.85) * 20.0 == 18.0;
    assert Clamped(1.0) * 20.0 == 20.0;
    assert Clamped(0.70) * 10.0 == 7.0;
    assert Clamped(0.0) * 50.0 == 0.0;
    assert Clamped(0.475) * 100.0 == 39.975;
    RoundInteger(18);
    RoundInteger(20);
    RoundInteger(7);
    RoundInteger(0);
  }

  /** Ties go to the even neighbour, as Python's `round` does. */
  lemma RoundTies()
    ensures RoundHalfEven(4.5) == 4 && RoundHalfEven(5.5) == 6
    ensures RoundHalfEven(-0.5) == 0 && RoundHalfEven(0.5) == 0
  {
  }
}
