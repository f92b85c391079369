/**
 * The score composer, the risk classifier and the comment generator of
 * app/scoring.py: fixed arithmetic and threshold rules over the signals.
 */
module Scoring {
  import opened Models

  function Min(a: int, b: int): int {
    if a <= b then a else b
  }

  /** `clamp(x, lo, hi) = max(lo, min(hi, x))`. */
  function Clamp(x: real, lo: real, hi: real): (r: real)
    ensures lo <= hi ==> lo <= r <= hi
    ensures lo <= x <= hi ==> r == x
    ensures r >= lo
  {
    var m := if hi <= x then hi else x;
    if m <= lo then lo else m
  }

  /** Clamping keeps the order of its argument. */
  lemma ClampMonotone(x: real, y: real, lo: real, hi: real)
    requires x <= y
    ensures Clamp(x, lo, hi) <= Clamp(y, lo, hi)
  {
  }

  /** Python's `round` on a number: to the nearest integer, halves to the even neighbour. */
  function RoundHalfEven(x: real): (r: int)
    ensures -0.5 <= r as real - x <= 0.5
    ensures (r as real - x == 0.5 || x - r as real == 0.5) ==> r % 2 == 0
    ensures x >= 0.0 ==> r >= 0
  {
    var f := x.Floor;
    var d := x - f as real;
    if d < 0.5 then f
    else if d > 0.5 then f + 1
    else if f % 2 == 0 then f
    else f + 1
  }

  /** An integer nearer than one half to `x` is what `x` rounds to. */
  lemma RoundNearest(x: real, n: int)
    requires -0.5 < n as real - x < 0.5
    ensures RoundHalfEven(x) == n
  {
  }

  /** Rounding keeps the order of its argument. */
  lemma RoundMonotone(x: real, y: real)
    requires x <= y
    ensures RoundHalfEven(x) <= RoundHalfEven(y)
  {
  }

  // ---------------------------------------------------------------- sakura_score

  /** Points from short five-star reviews: at most 40. */
  function ShortPoints(short5Ratio: real): (r: real)
    ensures 0.0 <= r <= 40.0
    ensures short5Ratio >= 0.4 ==> r == 40.0
    ensures short5Ratio <= 0.0 ==> r == 0.0
  {
    Clamp(short5Ratio * 100.0, 0.0, 40.0)
  }

  /** Points from a burst of reviews: at most 25. */
  function BurstPoints(burst7DayRatio: real): (r: real)
    ensures 0.0 <= r <= 25.0
    ensures burst7DayRatio >= 0.25 ==> r == 25.0
    ensures burst7DayRatio <= 0.0 ==> r == 0.0
  {
    Clamp(burst7DayRatio * 100.0, 0.0, 25.0)
  }

  /** Points from a positive rating difference: at most 20. */
  function RatingDiffPoints(ratingDiff: Option<real>): (r: real)
    ensures 0.0 <= r <= 20.0
    ensures ratingDiff.None? || ratingDiff.value <= 0.0 ==> r == 0.0
    ensures ratingDiff.Some? && ratingDiff.value * 15.0 >= 20.0 ==> r == 20.0
  {
    if ratingDiff.Some? && ratingDiff.value > 0.0 then Clamp(ratingDiff.value * 15.0, 0.0, 20.0) else 0.0
  }

  /** Points from a dissimilar competing-source name: at most 15. */
  function NamePoints(nameSimilarity: Option<real>): (r: real)
    ensures 0.0 <= r <= 15.0
    ensures nameSimilarity.None? || nameSimilarity.value >= 1.0 ==> r == 0.0
  {
    if nameSimilarity.Some? then Clamp((1.0 - nameSimilarity.value) * 20.0, 0.0, 15.0) else 0.0
  }

  /** The `sakura` accumulator before rounding: six non-negative, individually capped terms. */
  function SakuraPoints(short5Ratio: real, burst7DayRatio: real, ratingDiff: Option<real>, tabelogMissing: bool,
                        nameSimilarity: Option<real>, lowStarRatio: real, totalReviews: nat): (s: real)
    ensures 0.0 <= s <= 40.0 + 25.0 + 20.0 + 5.0 + 15.0 + 10.0
  {
    ShortPoints(short5Ratio)
    + BurstPoints(burst7DayRatio)
    + RatingDiffPoints(ratingDiff)
    + (if tabelogMissing then 5.0 else 0.0)
    + NamePoints(nameSimilarity)
    + (if totalReviews >= 20 && lowStarRatio < 0.1 then 10.0 else 0.0)
  }

  /** `_calc_sakura_score`: the rounded accumulator, capped at 100. */
  function SakuraScore(short5Ratio: real, burst7DayRatio: real, ratingDiff: Option<real>, tabelogMissing: bool,
                       nameSimilarity: Option<real>, lowStarRatio: real, totalReviews: nat): (r: int)
    ensures 0 <= r <= 100
  {
    Min(100, RoundHalfEven(SakuraPoints(short5Ratio, burst7DayRatio, ratingDiff, tabelogMissing,
                                        nameSimilarity, lowStarRatio, totalReviews)))
  }

  /** A rating difference that is absent, or no larger than another present one. */
  predicate DiffAtMost(a: Option<real>, b: Option<real>) {
    a.None? || (b.Some? && a.value <= b.value)
  }

  /** A name similarity that is absent, or no smaller than another present one. */
  predicate SimilarityAtLeast(a: Option<real>, b: Option<real>) {
    a.None? || (b.Some? && a.value >= b.value)
  }

  lemma RatingDiffPointsMonotone(diff: Option<real>, diff': Option<real>)
    requires DiffAtMost(diff, diff')
    ensures RatingDiffPoints(diff) <= RatingDiffPoints(diff')
  {
    if diff.Some? && diff.value > 0.0 {
      ClampMonotone(diff.value * 15.0, diff'.value * 15.0, 0.0, 20.0);
    }
  }

  lemma NamePointsAntitone(sim: Option<real>, sim': Option<real>)
    requires SimilarityAtLeast(sim, sim')
    ensures NamePoints(sim) <= NamePoints(sim')
  {
    if sim.Some? {
      ClampMonotone((1.0 - sim.value) * 20.0, (1.0 - sim'.value) * 20.0, 0.0, 15.0);
    }
  }

  /**
   * Stronger sakura signals never lower the sakura score: more short
   * five-star reviews, a larger burst, a larger rating gap, a missing
   * competing source or a less similar name can only raise it.
   */
  lemma SakuraScoreMonotone(short5: real, short5': real, burst: real, burst': real,
                            diff: Option<real>, diff': Option<real>, missing: bool, missing': bool,
                            sim: Option<real>, sim': Option<real>, lowStar: real, total: nat)
    requires short5 <= short5' && burst <= burst'
    requires DiffAtMost(diff, diff')
    requires missing ==> missing'
    requires SimilarityAtLeast(sim, sim')
    ensures SakuraScore(short5, burst, diff, missing, sim, lowStar, total)
            <= SakuraScore(short5', burst', diff', missing', sim', lowStar, total)
  {
    SakuraPointsMonotone(short5, short5', burst, burst', diff, diff', missing, missing', sim, sim', lowStar, total);
    RoundMonotone(SakuraPoints(short5, burst, diff, missing, sim, lowStar, total),
                  SakuraPoints(short5', burst', diff', missing', sim', lowStar, total));
  }

  /** The accumulator before rounding grows with the signals as the score does. */
  lemma SakuraPointsMonotone(short5: real, short5': real, burst: real, burst': real,
                             diff: Option<real>, diff': Option<real>, missing: bool, missing': bool,
                             sim: Option<real>, sim': Option<real>, lowStar: real, total: nat)
    requires short5 <= short5' && burst <= burst'
    requires DiffAtMost(diff, diff')
    requires missing ==> missing'
    requires SimilarityAtLeast(sim, sim')
    ensures SakuraPoints(short5, burst, diff, missing, sim, lowStar, total)
            <= SakuraPoints(short5', burst', diff', missing', sim', lowStar, total)
  {
    assert ShortPoints(short5) <= ShortPoints(short5') by {
      ClampMonotone(short5 * 100.0, short5' * 100.0, 0.0, 40.0);
    }
    assert BurstPoints(burst) <= BurstPoints(burst') by {
      ClampMonotone(burst * 100.0, burst' * 100.0, 0.0, 25.0);
    }
    RatingDiffPointsMonotone(diff, diff');
    NamePointsAntitone(sim, sim');
  }

  /**
   * Every short five-star signal saturated, a burst ratio of at least 0.25,
   * a rating gap of at least 4/3 of a star and at least twenty reviews with
   * under 10% low stars reach 95 points.
   */
  lemma SakuraScoreSaturated(short5: real, burst: real, diff: Option<real>, missing: bool,
                             sim: Option<real>, lowStar: real, total: nat)
    requires short5 >= 0.4 && burst >= 0.25
    requires diff.Some? && diff.value * 15.0 >= 20.0
    requires total >= 20 && lowStar < 0.1
    ensures SakuraScore(short5, burst, diff, missing, sim, lowStar, total) >= 95
  {
    var p := SakuraPoints(short5, burst, diff, missing, sim, lowStar, total);
    assert ShortPoints(short5) == 40.0;
    assert BurstPoints(burst) == 25.0;
    assert RatingDiffPoints(diff) == 20.0;
    assert p >= 95.0;
    RoundNearest(95.0, 95);
    RoundMonotone(95.0, p);
  }

  /**
   * With no short five-star reviews, the competing source present with a
   * gap of at most half a star, an identical name and fewer than twenty
   * reviews, only the burst (at most 25) and the gap (at most 7.5) count,
   * and the score is at most 32.
   */
  lemma SakuraScoreQuiet(short5: real, burst: real, diff: Option<real>,
                         sim: Option<real>, lowStar: real, total: nat)
    requires short5 <= 0.0 && burst <= 1.0
    requires diff.None? || diff.value <= 0.5
    requires sim.None? || sim.value == 1.0
    requires total < 20
    ensures SakuraScore(short5, burst, diff, false, sim, lowStar, total) <= 32
  {
    var p := SakuraPoints(short5, burst, diff, false, sim, lowStar, total);
    assert ShortPoints(short5) == 0.0;
    assert BurstPoints(burst) <= 25.0;
    assert RatingDiffPoints(diff) <= 7.5;
    assert NamePoints(sim) == 0.0;
    assert p <= 32.5;
    RoundMonotone(p, 32.5);
    assert RoundHalfEven(32.5) == 32;
  }

  // ---------------------------------------------------------------- fraud_score

  /** The `fraud` accumulator before rounding: a keyword term of at most 90 and a low-star bonus of 10. */
  function FraudPoints(fraudKeywordRatio: real, lowStarRatio: real, totalReviews: nat): (s: real)
    ensures 0.0 <= s <= 100.0
  {
    Clamp(fraudKeywordRatio * 200.0, 0.0, 90.0)
    + (if totalReviews >= 10 && lowStarRatio >= 0.3 then 10.0 else 0.0)
  }

  /** `_calc_fraud_score`: the rounded accumulator, capped at 100. */
  function FraudScore(fraudKeywordRatio: real, lowStarRatio: real, totalReviews: nat): (r: int)
    ensures 0 <= r <= 100
  {
    Min(100, RoundHalfEven(FraudPoints(fraudKeywordRatio, lowStarRatio, totalReviews)))
  }

  /** A larger share of keyword-hit reviews never lowers the fraud score. */
  lemma FraudScoreMonotone(ratio: real, ratio': real, lowStar: real, total: nat)
    requires ratio <= ratio'
    ensures FraudScore(ratio, lowStar, total) <= FraudScore(ratio', lowStar, total)
  {
    ClampMonotone(ratio * 200.0, ratio' * 200.0, 0.0, 90.0);
    RoundMonotone(FraudPoints(ratio, lowStar, total), FraudPoints(ratio', lowStar, total));
  }

  /**
   * The fraud score is 100 exactly when the low-star bonus applies and the
   * keyword term reaches 89.5, so that the total 99.5 rounds half-to-even
   * up to 100: that is, when at least 44.75% of the reviews hit a keyword.
   */
  lemma FraudScoreMaximal(ratio: real, lowStar: real, total: nat)
    ensures FraudScore(ratio, lowStar, total) == 100
            <==> ratio >= 0.4475 && total >= 10 && lowStar >= 0.3
  {
    var p := FraudPoints(ratio, lowStar, total);
    if ratio >= 0.4475 && total >= 10 && lowStar >= 0.3 {
      assert p >= 99.5;
      assert RoundHalfEven(99.5) == 100;
      RoundMonotone(99.5, p);
    }
  }

  /** No keyword hits and fewer than ten reviews give a fraud score of 0. */
  lemma FraudScoreNone(ratio: real, lowStar: real, total: nat)
    requires ratio <= 0.0 && total < 10
    ensures FraudScore(ratio, lowStar, total) == 0
  {
    assert FraudPoints(ratio, lowStar, total) == 0.0;
    RoundNearest(0.0, 0);
  }

  // ---------------------------------------------------------------- risk_label

  /** `_calc_risk_label`. */
  function RiskLabelOf(sakuraScore: int, fraudScore: int): (r: RiskLabel)
    ensures r == High <==> sakuraScore >= 70 || fraudScore >= 70
    ensures r == Medium <==> sakuraScore < 70 && fraudScore < 70 && (sakuraScore >= 40 || fraudScore >= 40)
    ensures r == Low <==> sakuraScore < 40 && fraudScore < 40
  {
    if sakuraScore >= 70 || fraudScore >= 70 then High
    else if sakuraScore >= 40 || fraudScore >= 40 then Medium
    else Low
  }

  /** Higher scores never give a lower label. */
  lemma RiskLabelMonotone(s: int, f: int, s': int, f': int)
    requires s <= s' && f <= f'
    ensures RiskLabelOf(s, f).Level() <= RiskLabelOf(s', f').Level()
  {
  }

  // ---------------------------------------------------------------- comments

  /** Python's `int(x)` on a number: truncation toward zero. */
  function Truncate(x: real): (r: int)
    ensures x >= 0.0 ==> r as real <= x < r as real + 1.0
    ensures x < 0.0 ==> r as real - 1.0 < x <= r as real
  {
    if x >= 0.0 then x.Floor else -((-x).Floor)
  }

  /** The one-element list `[c]` when `present`, the empty list otherwise. */
  function When(present: bool, c: Comment): (r: seq<Comment>)
    ensures |r| == if present then 1 else 0
    ensures forall x :: x in r <==> present && x == c
  {
    if present then [c] else []
  }

  /** The comments `_build_comments` produces, in its fixed order. */
  function CommentsFor(short5Ratio: real, burst7DayRatio: real, ratingDiff: Option<real>,
                       tabelogMissing: bool, fraudKeywordRatio: real): (r: seq<Comment>)
    ensures |r| <= 5
    ensures forall i, j :: 0 <= i < j < |r| ==> r[i].Rank() < r[j].Rank()
  {
    When(short5Ratio >= 0.4, ShortFiveStar(Truncate(short5Ratio * 100.0)))
    + When(burst7DayRatio >= 0.4, ReviewBurst)
    + When(ratingDiff.Some? && ratingDiff.value >= 0.5, RatingGap)
    + When(tabelogMissing, TabelogSparse)
    + When(fraudKeywordRatio > 0.0, ScamKeywords)
  }

  /**
   * Each comment is present exactly when its threshold is met, and the
   * list is empty exactly when no threshold is met.
   */
  lemma CommentsForContents(short5Ratio: real, burst7DayRatio: real, ratingDiff: Option<real>,
                            tabelogMissing: bool, fraudKeywordRatio: real)
    ensures var r := CommentsFor(short5Ratio, burst7DayRatio, ratingDiff, tabelogMissing, fraudKeywordRatio);
      && (ShortFiveStar(Truncate(short5Ratio * 100.0)) in r <==> short5Ratio >= 0.4)
      && ((exists i :: 0 <= i < |r| && r[i].ShortFiveStar?) <==> short5Ratio >= 0.4)
      && (ReviewBurst in r <==> burst7DayRatio >= 0.4)
      && (RatingGap in r <==> ratingDiff.Some? && ratingDiff.value >= 0.5)
      && (TabelogSparse in r <==> tabelogMissing)
      && (ScamKeywords in r <==> fraudKeywordRatio > 0.0)
      && (r == [] <==> short5Ratio < 0.4 && burst7DayRatio < 0.4
                       && (ratingDiff.None? || ratingDiff.value < 0.5)
                       && !tabelogMissing && fraudKeywordRatio <= 0.0)
  {
    CommentsForShortFive(short5Ratio, burst7DayRatio, ratingDiff, tabelogMissing, fraudKeywordRatio);
    CommentsForMembers(short5Ratio, burst7DayRatio, ratingDiff, tabelogMissing, fraudKeywordRatio);
    CommentsForEmpty(short5Ratio, burst7DayRatio, ratingDiff, tabelogMissing, fraudKeywordRatio);
  }

  lemma CommentsForMembers(short5Ratio: real, burst7DayRatio: real, ratingDiff: Option<real>,
                           tabelogMissing: bool, fraudKeywordRatio: real)
    ensures var r := CommentsFor(short5Ratio, burst7DayRatio, ratingDiff, tabelogMissing, fraudKeywordRatio);
      && (ShortFiveStar(Truncate(short5Ratio * 100.0)) in r <==> short5Ratio >= 0.4)
      && (ReviewBurst in r <==> burst7DayRatio >= 0.4)
      && (RatingGap in r <==> ratingDiff.Some? && ratingDiff.value >= 0.5)
      && (TabelogSparse in r <==> tabelogMissing)
      && (ScamKeywords in r <==> fraudKeywordRatio > 0.0)
  {
  }

  lemma CommentsForEmpty(short5Ratio: real, burst7DayRatio: real, ratingDiff: Option<real>,
                         tabelogMissing: bool, fraudKeywordRatio: real)
    ensures CommentsFor(short5Ratio, burst7DayRatio, ratingDiff, tabelogMissing, fraudKeywordRatio) == []
            <==> short5Ratio < 0.4 && burst7DayRatio < 0.4
                 && (ratingDiff.None? || ratingDiff.value < 0.5)
                 && !tabelogMissing && fraudKeywordRatio <= 0.0
  {
  }

  lemma CommentsForShortFive(short5Ratio: real, burst7DayRatio: real, ratingDiff: Option<real>,
                             tabelogMissing: bool, fraudKeywordRatio: real)
    ensures var r := CommentsFor(short5Ratio, burst7DayRatio, ratingDiff, tabelogMissing, fraudKeywordRatio);
      (exists i :: 0 <= i < |r| && r[i].ShortFiveStar?) <==> short5Ratio >= 0.4
  {
    var r := CommentsFor(short5Ratio, burst7DayRatio, ratingDiff, tabelogMissing, fraudKeywordRatio);
    if short5Ratio >= 0.4 {
      assert r[0].ShortFiveStar?;
    } else {
      forall i | 0 <= i < |r| ensures !r[i].ShortFiveStar? {
        assert r[i] in r;
      }
    }
  }

  /** `_build_comments`: appends each comment whose threshold is met. */
  method BuildComments(short5Ratio: real, burst7DayRatio: real, ratingDiff: Option<real>,
                       tabelogMissing: bool, fraudKeywordRatio: real) returns (comments: seq<Comment>)
    ensures comments == CommentsFor(short5Ratio, burst7DayRatio, ratingDiff, tabelogMissing, fraudKeywordRatio)
  {
    comments := [];
    if short5Ratio >= 0.4 {
      comments := comments + [ShortFiveStar(Truncate(short5Ratio * 100.0))];
    }
    assert comments == When(short5Ratio >= 0.4, ShortFiveStar(Truncate(short5Ratio * 100.0)));
    ghost var prefix := comments;
    if burst7DayRatio >= 0.4 {
      comments := comments + [ReviewBurst];
    }
    assert comments == prefix + When(burst7DayRatio >= 0.4, ReviewBurst);
    prefix := comments;
    if ratingDiff.Some? && ratingDiff.value >= 0.5 {
      comments := comments + [RatingGap];
    }
    assert comments == prefix + When(ratingDiff.Some? && ratingDiff.value >= 0.5, RatingGap);
    prefix := comments;
    if tabelogMissing {
      comments := comments + [TabelogSparse];
    }
    assert comments == prefix + When(tabelogMissing, TabelogSparse);
    prefix := comments;
    if fraudKeywordRatio > 0.0 {
      comments := comments + [ScamKeywords];
    }
    assert comments == prefix + When(fraudKeywordRatio > 0.0, ScamKeywords);
  }
}
