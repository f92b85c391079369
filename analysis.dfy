/**
 * `analyze_place` (app/scoring.py:31-74): computes the seven signals from
 * the place and the request, scores them, labels the risk, lists the
 * fraud keywords that occurred and writes the comments.
 */
module Analysis {
  import opened Models
  import opened TextOps
  import opened BurstWindow
  import opened Extractors
  import opened FraudStats
  import opened Scoring

  /** `tabelog_missing`: the request carries neither a competing rating nor a competing review count. */
  function TabelogMissing(req: AnalyzeRequest): bool {
    req.tabelogRating.None? && req.tabelogReviewCount.None?
  }

  /** The competing rating as a plain number. */
  function CompetitorRating(req: AnalyzeRequest): Option<real> {
    if req.tabelogRating.Some? then Some(req.tabelogRating.value as real) else None
  }

  /** The signals record `analyze_place` builds. */
  function SignalsOf(lib: TextLibrary, place: PlaceData, req: AnalyzeRequest): (s: Signals)
    ensures s.totalReviews == |place.reviews|
    ensures 0.0 <= s.short5Ratio <= 1.0 && 0.0 <= s.burst7DayRatio <= 1.0
    ensures 0.0 <= s.lowStarRatio <= 1.0 && 0.0 <= s.fraudKeywordRatio <= 1.0
    ensures s.ratingDiffGoogleMinusTabelog.None? <==> place.rating.None? || req.tabelogRating.None?
    ensures s.ratingDiffGoogleMinusTabelog.Some? ==>
              s.ratingDiffGoogleMinusTabelog.value == place.rating.value - req.tabelogRating.value
    ensures s.tabelogMissing <==> req.tabelogRating.None? && req.tabelogReviewCount.None?
    ensures req.tabelogName.None? ==> s.nameSimilarityGoogleVsTabelog.None?
    ensures s.nameSimilarityGoogleVsTabelog.Some? ==> 0.0 <= s.nameSimilarityGoogleVsTabelog.value <= 1.0
    ensures |place.reviews| < BurstMinReviews ==> s.burst7DayRatio == 0.0
  {
    var reviews := place.reviews;
    Signals(
      |reviews|,
      Short5Ratio(lib, reviews),
      BurstRatio(reviews),
      RatingDiff(place.rating, CompetitorRating(req)),
      TabelogMissing(req),
      NameSimilarity(lib, place.name, req.tabelogName),
      LowStarRatio(reviews),
      FraudStatsOf(lib, reviews).0)
  }

  /** The response `analyze_place` returns. */
  function Analyze(lib: TextLibrary, place: PlaceData, req: AnalyzeRequest): (resp: Response)
    ensures 0 <= resp.sakuraScore <= 100 && 0 <= resp.fraudScore <= 100
    ensures resp.riskLabel == High <==> resp.sakuraScore >= 70 || resp.fraudScore >= 70
    ensures resp.riskLabel == Low <==> resp.sakuraScore < 40 && resp.fraudScore < 40
    ensures forall i :: 0 <= i < |resp.fraudKeywords| ==> resp.fraudKeywords[i].count > 0
    ensures |resp.comments| <= 5
    ensures forall i, j :: 0 <= i < j < |resp.comments| ==> resp.comments[i].Rank() < resp.comments[j].Rank()
  {
    var s := SignalsOf(lib, place, req);
    var sakura := SakuraScore(s.short5Ratio, s.burst7DayRatio, s.ratingDiffGoogleMinusTabelog, s.tabelogMissing,
                              s.nameSimilarityGoogleVsTabelog, s.lowStarRatio, s.totalReviews);
    var fraud := FraudScore(s.fraudKeywordRatio, s.lowStarRatio, s.totalReviews);
    Response(
      sakura,
      fraud,
      RiskLabelOf(sakura, fraud),
      s,
      PositiveCounts(FraudStatsOf(lib, place.reviews).1),
      CommentsFor(s.short5Ratio, s.burst7DayRatio, s.ratingDiffGoogleMinusTabelog, s.tabelogMissing,
                  s.fraudKeywordRatio))
  }

  /** `analyze_place`: runs each extractor, then scores, labels and explains the signals. */
  method AnalyzePlace(lib: TextLibrary, place: PlaceData, req: AnalyzeRequest) returns (resp: Response)
    ensures resp == Analyze(lib, place, req)
  {
    var reviews := place.reviews;
    var totalReviews := |reviews|;
    var short5Ratio := CalcShort5Ratio(lib, reviews);
    var burst7DayRatio := CalcBurstRatio(reviews);
    var ratingDiff := RatingDiff(place.rating, CompetitorRating(req));
    var tabelogMissing := req.tabelogRating.None? && req.tabelogReviewCount.None?;
    var nameSimilarity := CalcNameSimilarity(lib, place.name, req.tabelogName);
    var lowStarRatio := LowStarRatio(reviews);
    var fraudKeywordRatio, fraudKeywordDetail := CalcFraudStats(lib, reviews);
    var signals := Signals(totalReviews, short5Ratio, burst7DayRatio, ratingDiff, tabelogMissing,
                           nameSimilarity, lowStarRatio, fraudKeywordRatio);
    var sakuraScore := SakuraScore(short5Ratio, burst7DayRatio, ratingDiff, tabelogMissing,
                                   nameSimilarity, lowStarRatio, totalReviews);
    var fraudScore := FraudScore(fraudKeywordRatio, lowStarRatio, totalReviews);
    var riskLabel := RiskLabelOf(sakuraScore, fraudScore);
    var comments := BuildComments(short5Ratio, burst7DayRatio, ratingDiff, tabelogMissing, fraudKeywordRatio);
    resp := Response(sakuraScore, fraudScore, riskLabel, signals, PositiveCounts(fraudKeywordDetail), comments);
  }

  // ---------------------------------------------------------------- the response's parts agree

  /**
   * `fraud_keywords` lists each fraud keyword that at least one review
   * mentions, once, with the number of reviews that mention it, and
   * nothing else.
   */
  lemma ResponseKeywords(lib: TextLibrary, place: PlaceData, req: AnalyzeRequest)
    ensures var fk := Analyze(lib, place, req).fraudKeywords;
      && (forall i :: 0 <= i < |fk| ==>
            fk[i].keyword in FraudKeywords && fk[i].count == MentionCount(lib, place.reviews, fk[i].keyword) > 0)
      && (forall i, j :: 0 <= i < j < |fk| ==> fk[i].keyword != fk[j].keyword)
      && (forall k :: k in FraudKeywords && MentionCount(lib, place.reviews, k) > 0 ==>
            exists i :: 0 <= i < |fk| && fk[i].keyword == k)
  {
    var reviews := place.reviews;
    var counter := KeywordCounter(lib, reviews, FraudKeywords);
    assert FraudStatsOf(lib, reviews).1 == counter;
    FraudKeywordsDistinct();
    FraudTallyMeaning(lib, reviews, FraudKeywords);
    PositiveCountsKeepsAll(counter);
    var fk := Analyze(lib, place, req).fraudKeywords;
    assert fk == counter;
    forall i | 0 <= i < |fk|
      ensures fk[i].keyword in FraudKeywords && fk[i].count == MentionCount(lib, reviews, fk[i].keyword) > 0
    {
      LookupEntry(counter, i);
    }
    forall k | k in FraudKeywords && MentionCount(lib, reviews, k) > 0
      ensures exists i :: 0 <= i < |fk| && fk[i].keyword == k
    {
      LookupFound(counter, k);
    }
  }

  /**
   * Each comment appears exactly when the signal reported beside it in the
   * response crosses its threshold.
   */
  lemma ResponseComments(lib: TextLibrary, place: PlaceData, req: AnalyzeRequest)
    ensures var resp := Analyze(lib, place, req);
      var s := resp.signals;
      && ((exists i :: 0 <= i < |resp.comments| && resp.comments[i].ShortFiveStar?) <==> s.short5Ratio >= 0.4)
      && (ReviewBurst in resp.comments <==> s.burst7DayRatio >= 0.4)
      && (RatingGap in resp.comments <==> s.ratingDiffGoogleMinusTabelog.Some?
                                          && s.ratingDiffGoogleMinusTabelog.value >= 0.5)
      && (TabelogSparse in resp.comments <==> s.tabelogMissing)
      && (ScamKeywords in resp.comments <==> s.fraudKeywordRatio > 0.0)
  {
    var s := SignalsOf(lib, place, req);
    CommentsForContents(s.short5Ratio, s.burst7DayRatio, s.ratingDiffGoogleMinusTabelog, s.tabelogMissing,
                        s.fraudKeywordRatio);
  }

  // ---------------------------------------------------------------- scenarios

  /**
   * A place with no reviews, checked without any competing-source data,
   * gets only the five "competing source missing" points: sakura score 5,
   * fraud score 0, label low, and the single "sparse" comment.
   */
  lemma NoReviewsNoCompetitor(lib: TextLibrary, place: PlaceData, req: AnalyzeRequest)
    requires place.reviews == []
    requires req.tabelogRating.None? && req.tabelogReviewCount.None? && req.tabelogName.None?
    ensures var resp := Analyze(lib, place, req);
      && resp.sakuraScore == 5 && resp.fraudScore == 0 && resp.riskLabel == Low
      && resp.signals.short5Ratio == 0.0 && resp.signals.burst7DayRatio == 0.0
      && resp.signals.lowStarRatio == 0.0 && resp.signals.fraudKeywordRatio == 0.0
      && resp.fraudKeywords == [] && resp.comments == [TabelogSparse]
  {
    var s := SignalsOf(lib, place, req);
    assert SakuraPoints(s.short5Ratio, s.burst7DayRatio, s.ratingDiffGoogleMinusTabelog, s.tabelogMissing,
                        s.nameSimilarityGoogleVsTabelog, s.lowStarRatio, s.totalReviews) == 5.0;
    RoundNearest(5.0, 5);
    RoundNearest(0.0, 0);
  }

  /** The scores in the response are the scores of the signals it reports. */
  lemma ResponseScores(lib: TextLibrary, place: PlaceData, req: AnalyzeRequest)
    ensures var resp := Analyze(lib, place, req);
      var s := resp.signals;
      && s == SignalsOf(lib, place, req)
      && resp.sakuraScore == SakuraScore(s.short5Ratio, s.burst7DayRatio, s.ratingDiffGoogleMinusTabelog,
                                         s.tabelogMissing, s.nameSimilarityGoogleVsTabelog, s.lowStarRatio,
                                         s.totalReviews)
      && resp.fraudScore == FraudScore(s.fraudKeywordRatio, s.lowStarRatio, s.totalReviews)
  {
  }

  /**
   * A small place (under ten reviews) with no short five-star review, no
   * fraud keyword, a competing rating at most half a star lower and the same
   * name on both sources is labelled low: only the burst (at most 25) and
   * the rating gap (at most 7.5) contribute.
   */
  lemma QuietPlaceIsLowRisk(lib: TextLibrary, place: PlaceData, req: AnalyzeRequest)
    requires |place.reviews| < 10
    requires forall i :: 0 <= i < |place.reviews| ==> !IsShortFiveStar(lib, place.reviews[i])
    requires forall i :: 0 <= i < |place.reviews| ==> !MentionsAny(lib, place.reviews[i].text, FraudKeywords)
    requires place.rating.Some? && req.tabelogRating.Some?
    requires place.rating.value - req.tabelogRating.value <= 0.5
    requires req.tabelogName == Some(place.name)
    requires lib.ratio(NormalizedName(lib, place.name), NormalizedName(lib, place.name)) == 1.0
    ensures var resp := Analyze(lib, place, req);
      resp.sakuraScore <= 32 && resp.fraudScore == 0 && resp.riskLabel == Low
  {
    var reviews := place.reviews;
    var s := SignalsOf(lib, place, req);
    ShortFiveCountAllOrNone(lib, reviews);
    HitsAllOrNone(lib, reviews, FraudKeywords);
    ResponseScores(lib, place, req);
    SakuraScoreQuiet(s.short5Ratio, s.burst7DayRatio, s.ratingDiffGoogleMinusTabelog,
                     s.nameSimilarityGoogleVsTabelog, s.lowStarRatio, s.totalReviews);
    FraudScoreNone(s.fraudKeywordRatio, s.lowStarRatio, s.totalReviews);
  }

  /**
   * At least twenty reviews, all short five-star and all posted within one
   * week of each other, on a place rated at least 4/3 of a star above the
   * competing source, score at least 95 and are labelled high.
   */
  lemma ShortFiveStarBurstIsHighRisk(lib: TextLibrary, place: PlaceData, req: AnalyzeRequest)
    requires |place.reviews| >= 20
    requires forall i :: 0 <= i < |place.reviews| ==> IsShortFiveStar(lib, place.reviews[i])
    requires forall i, j :: 0 <= i < |place.reviews| && 0 <= j < |place.reviews| ==>
               place.reviews[i].createdAt - place.reviews[j].createdAt <= Week
    requires place.rating.Some? && req.tabelogRating.Some?
    requires (place.rating.value - req.tabelogRating.value) * 15.0 >= 20.0
    ensures var resp := Analyze(lib, place, req);
      resp.sakuraScore >= 95 && resp.riskLabel == High
  {
    var s := SignalsOf(lib, place, req);
    ShortFiveStarBurstRatios(lib, place.reviews);
    assert s.short5Ratio == 1.0 && s.lowStarRatio == 0.0 && s.burst7DayRatio == 1.0;
    ResponseScores(lib, place, req);
    SakuraScoreSaturated(s.short5Ratio, s.burst7DayRatio, s.ratingDiffGoogleMinusTabelog, s.tabelogMissing,
                         s.nameSimilarityGoogleVsTabelog, s.lowStarRatio, s.totalReviews);
  }

  /** Reviews that are all short five-star and all within one week of each other: the ratios are 1, 0 and 1. */
  lemma ShortFiveStarBurstRatios(lib: TextLibrary, reviews: seq<Review>)
    requires |reviews| >= 20
    requires forall i :: 0 <= i < |reviews| ==> IsShortFiveStar(lib, reviews[i])
    requires forall i, j :: 0 <= i < |reviews| && 0 <= j < |reviews| ==>
               reviews[i].createdAt - reviews[j].createdAt <= Week
    ensures Short5Ratio(lib, reviews) == 1.0 && LowStarRatio(reviews) == 0.0 && BurstRatio(reviews) == 1.0
  {
    assert ShortFiveCount(lib, reviews) == |reviews| by {
      ShortFiveCountAllOrNone(lib, reviews);
    }
    assert LowStarCount(reviews) == 0 by {
      forall i | 0 <= i < |reviews| ensures !IsLowStar(reviews[i]) {
        assert IsShortFiveStar(lib, reviews[i]);
      }
      LowStarCountAllOrNone(reviews);
    }
    assert BurstRatio(reviews) == 1.0 by {
      BurstOfOneWeek(reviews);
    }
  }

  /**
   * At least ten reviews, every one rated one or two stars and every one
   * mentioning a fraud keyword, give the maximal fraud score and the label high.
   */
  lemma LowStarFraudIsHighRisk(lib: TextLibrary, place: PlaceData, req: AnalyzeRequest)
    requires |place.reviews| >= 10
    requires forall i :: 0 <= i < |place.reviews| ==> IsLowStar(place.reviews[i])
    requires forall i :: 0 <= i < |place.reviews| ==> MentionsAny(lib, place.reviews[i].text, FraudKeywords)
    ensures var resp := Analyze(lib, place, req);
      resp.fraudScore == 100 && resp.riskLabel == High
  {
    var reviews := place.reviews;
    var s := SignalsOf(lib, place, req);
    LowStarCountAllOrNone(reviews);
    HitsAllOrNone(lib, reviews, FraudKeywords);
    assert s.fraudKeywordRatio == 1.0 && s.lowStarRatio == 1.0;
    ResponseScores(lib, place, req);
    FraudScoreMaximal(s.fraudKeywordRatio, s.lowStarRatio, s.totalReviews);
    assert Analyze(lib, place, req).fraudScore == 100;
  }

  /**
   * A place rated 4.9 against a competing 3.0 reports a gap of 1.9 and
   * carries the rating-gap comment.
   */
  lemma RatingGapIsExplained(lib: TextLibrary, place: PlaceData, req: AnalyzeRequest)
    requires place.rating == Some(4.9) && req.tabelogRating == Some(3.0)
    ensures var resp := Analyze(lib, place, req);
      resp.signals.ratingDiffGoogleMinusTabelog == Some(1.9) && RatingGap in resp.comments
  {
    ResponseComments(lib, place, req);
  }
}
