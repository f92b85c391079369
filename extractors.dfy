/**
 * The signal extractors of app/scoring.py other than the fraud keyword
 * statistics: the short five-star ratio, the seven-day burst ratio, the
 * rating difference, the name similarity and the low-star ratio.
 */
module Extractors {
  import opened Models
  import opened TextOps
  import opened BurstWindow

  /** A five-star review whose normalised text has at most this many characters is "short". */
  const ShortTextLimit: nat := 15

  /** Fewer reviews than this give no burst signal. */
  const BurstMinReviews: nat := 5

  /** Legal-entity suffixes removed from business names, in the order they are removed. */
  const BusinessSuffixes: seq<string> :=
    ["株式会社", "（株）", "(株)", "有限会社", "合同会社", "inc", "co.,ltd", "co., ltd", "llc"]

  /** `count / total`, or 0 for no reviews. */
  function Ratio(count: nat, total: nat): (r: real)
    requires count <= total
    ensures 0.0 <= r <= 1.0
    ensures total == 0 ==> r == 0.0
    ensures total > 0 ==> r * total as real == count as real
    ensures count == 0 ==> r == 0.0
    ensures 0 < count == total ==> r == 1.0
  {
    if total == 0 then 0.0 else count as real / total as real
  }

  // ---------------------------------------------------------------- short_5_ratio

  predicate IsShortFiveStar(lib: TextLibrary, review: Review) {
    review.rating == 5 && |NormalizeText(lib, review.text)| <= ShortTextLimit
  }

  /** How many of the reviews are short five-star reviews. */
  function ShortFiveCount(lib: TextLibrary, reviews: seq<Review>): (n: nat)
    ensures n <= |reviews|
  {
    if reviews == [] then 0
    else
      ShortFiveCount(lib, reviews[..|reviews| - 1])
      + (if IsShortFiveStar(lib, reviews[|reviews| - 1]) then 1 else 0)
  }

  /** The count is the whole list when every review is short five-star, and 0 when none is. */
  lemma {:induction false} ShortFiveCountAllOrNone(lib: TextLibrary, reviews: seq<Review>)
    ensures (forall i :: 0 <= i < |reviews| ==> IsShortFiveStar(lib, reviews[i])) ==> ShortFiveCount(lib, reviews) == |reviews|
    ensures (forall i :: 0 <= i < |reviews| ==> !IsShortFiveStar(lib, reviews[i])) ==> ShortFiveCount(lib, reviews) == 0
  {
    if reviews != [] {
      ShortFiveCountAllOrNone(lib, reviews[..|reviews| - 1]);
    }
  }

  /** `short_5_ratio`: the share of short five-star reviews among all reviews. */
  function Short5Ratio(lib: TextLibrary, reviews: seq<Review>): (r: real)
    ensures 0.0 <= r <= 1.0
    ensures reviews == [] ==> r == 0.0
  {
    Ratio(ShortFiveCount(lib, reviews), |reviews|)
  }

  /** `_calc_short_5_ratio`: one pass over the reviews with a mutable counter. */
  method CalcShort5Ratio(lib: TextLibrary, reviews: seq<Review>) returns (r: real)
    ensures r == Short5Ratio(lib, reviews)
  {
    if |reviews| == 0 {
      return 0.0;
    }
    var shortCount := 0;
    for i := 0 to |reviews|
      invariant shortCount == ShortFiveCount(lib, reviews[..i])
    {
      var review := reviews[i];
      assert reviews[..i + 1][..i] == reviews[..i];
      if review.rating == 5 {
        var normalized := NormalizeText(lib, review.text);
        if |normalized| <= ShortTextLimit {
          shortCount := shortCount + 1;
        }
      }
    }
    assert reviews[..|reviews|] == reviews;
    r := shortCount as real / |reviews| as real;
  }

  // ---------------------------------------------------------------- burst_7day_ratio

  /** The reviews' timestamps, in review order. */
  function TimesOf(reviews: seq<Review>): (times: seq<int>)
    ensures |times| == |reviews|
    ensures forall i :: 0 <= i < |reviews| ==> times[i] == reviews[i].createdAt
  {
    seq(|reviews|, i requires 0 <= i < |reviews| => reviews[i].createdAt)
  }

  /** `burst_7day_ratio`: the sweep's largest window over the review count. */
  function BurstRatio(reviews: seq<Review>): (r: real)
    ensures 0.0 <= r <= 1.0
    ensures |reviews| < BurstMinReviews ==> r == 0.0
  {
    if |reviews| < BurstMinReviews then 0.0
    else
      var times := SortAscending(TimesOf(reviews));
      Ratio(BestWindow(times, |times|), |reviews|)
  }

  /** `_calc_burst_ratio`: sort the timestamps, then sweep them with a deque. */
  method CalcBurstRatio(reviews: seq<Review>) returns (r: real)
    ensures r == BurstRatio(reviews)
  {
    if |reviews| < BurstMinReviews {
      return 0.0;
    }
    var times := SortAscending(TimesOf(reviews));
    var maxInWindow := MaxWindowSize(times);
    r := maxInWindow as real / |reviews| as real;
  }

  /** Sorting the timestamps keeps every pair within the bound that held among the reviews. */
  lemma SortedWithinWeek(reviews: seq<Review>, k: nat, m: nat)
    requires k < |reviews| && m < |reviews|
    requires forall i, j :: 0 <= i < |reviews| && 0 <= j < |reviews| ==>
               reviews[i].createdAt - reviews[j].createdAt <= Week
    ensures SortAscending(TimesOf(reviews))[m] - SortAscending(TimesOf(reviews))[k] <= Week
  {
    var times := TimesOf(reviews);
    var s := SortAscending(times);
    assert s[k] in multiset(times) && s[m] in multiset(times);
    var a :| 0 <= a < |times| && times[a] == s[k];
    var b :| 0 <= b < |times| && times[b] == s[m];
    assert reviews[b].createdAt - reviews[a].createdAt <= Week;
  }

  /**
   * When at least five reviews were all posted within one week of each
   * other, the last review's window holds every review and the burst ratio is 1.
   */
  lemma BurstOfOneWeek(reviews: seq<Review>)
    requires |reviews| >= BurstMinReviews
    requires forall i, j :: 0 <= i < |reviews| && 0 <= j < |reviews| ==>
               reviews[i].createdAt - reviews[j].createdAt <= Week
    ensures BurstRatio(reviews) == 1.0
  {
    var s := SortAscending(TimesOf(reviews));
    forall k | 0 <= k < |s| ensures s[k] >= s[|s| - 1] - Week {
      SortedWithinWeek(reviews, k, |s| - 1);
    }
    WholeWeekWindow(s);
  }

  /** How many reviews were posted in the closed one-week interval ending at `t`. */
  function ReviewsInWeekEndingAt(reviews: seq<Review>, t: int): nat {
    WeekEndingAt(TimesOf(reviews), t)
  }

  /** Sorting the timestamps changes no interval's count. */
  lemma SortedWeekCount(reviews: seq<Review>, t: int)
    ensures ReviewsInWeekEndingAt(reviews, t) == WeekEndingAt(SortAscending(TimesOf(reviews)), t)
  {
    CountBetweenPermutation(TimesOf(reviews), SortAscending(TimesOf(reviews)), t - Week, t);
  }

  /**
   * For five or more reviews, `burst_7day_ratio` times the review count is
   * the largest number of reviews posted in any closed one-week interval:
   * no such interval holds more reviews, and some interval holds exactly
   * that many.
   */
  lemma BurstRatioIsBusiestWeek(reviews: seq<Review>)
    requires |reviews| >= BurstMinReviews
    ensures forall t :: ReviewsInWeekEndingAt(reviews, t) as real <= BurstRatio(reviews) * |reviews| as real
    ensures exists t :: ReviewsInWeekEndingAt(reviews, t) as real == BurstRatio(reviews) * |reviews| as real
  {
    var sorted := SortAscending(TimesOf(reviews));
    var best := BestWindow(sorted, |sorted|);
    assert BurstRatio(reviews) * |reviews| as real == best as real;
    BestWindowIsBusiestWeek(sorted);
    forall t ensures ReviewsInWeekEndingAt(reviews, t) <= best {
      SortedWeekCount(reviews, t);
    }
    var t :| WeekEndingAt(sorted, t) == best;
    SortedWeekCount(reviews, t);
  }

  // ---------------------------------------------------------------- rating_diff

  /** `_calc_rating_diff`: Google's rating minus the competing rating, when both exist. */
  function RatingDiff(googleRating: Option<real>, tabelogRating: Option<real>): (r: Option<real>)
    ensures r.None? <==> googleRating.None? || tabelogRating.None?
    ensures r.Some? ==> r.value == googleRating.value - tabelogRating.value
  {
    if googleRating.None? || tabelogRating.None? then None
    else Some(googleRating.value - tabelogRating.value)
  }

  // ---------------------------------------------------------------- name_similarity

  /** Removes every suffix of `suffixes`, first to last, from `text`. */
  function RemoveSuffixes(text: string, suffixes: seq<string>): string
  {
    if suffixes == [] then text
    else RemoveAll(RemoveSuffixes(text, suffixes[..|suffixes| - 1]), suffixes[|suffixes| - 1])
  }

  /** `_normalize_name`: normalise, lower-case, drop legal-entity suffixes and spaces. */
  function NormalizedName(lib: TextLibrary, name: string): (r: string)
    ensures ' ' !in r
  {
    var text := RemoveSuffixes(lib.lower(NormalizeText(lib, name)), BusinessSuffixes);
    RemoveAllChar(text, ' ');
    RemoveAll(text, " ")
  }

  /** A name with no legal-entity suffix and no space is left as normalised and lower-cased. */
  lemma {:induction false} RemoveSuffixesAbsent(text: string, suffixes: seq<string>)
    requires forall k :: 0 <= k < |suffixes| ==> !Contains(text, suffixes[k])
    ensures RemoveSuffixes(text, suffixes) == text
  {
    if suffixes != [] {
      RemoveSuffixesAbsent(text, suffixes[..|suffixes| - 1]);
      RemoveAllAbsent(text, suffixes[|suffixes| - 1]);
    }
  }

  /**
   * A name whose normalised, lower-cased form contains no legal-entity
   * suffix and no space is compared exactly as normalised and lower-cased.
   */
  lemma PlainNameUnchanged(lib: TextLibrary, name: string)
    requires forall k :: 0 <= k < |BusinessSuffixes| ==> !Contains(lib.lower(NormalizeText(lib, name)), BusinessSuffixes[k])
    requires !Contains(lib.lower(NormalizeText(lib, name)), " ")
    ensures NormalizedName(lib, name) == lib.lower(NormalizeText(lib, name))
  {
    var text := lib.lower(NormalizeText(lib, name));
    RemoveSuffixesAbsent(text, BusinessSuffixes);
    RemoveAllAbsent(text, " ");
  }

  /** The suffix loop of `_normalize_name`: rebinds `text` once per suffix. */
  method RemoveEachSuffix(text: string, suffixes: seq<string>) returns (r: string)
    ensures r == RemoveSuffixes(text, suffixes)
  {
    r := text;
    for k := 0 to |suffixes|
      invariant r == RemoveSuffixes(text, suffixes[..k])
    {
      assert suffixes[..k + 1][..k] == suffixes[..k];
      r := RemoveAll(r, suffixes[k]);
    }
    assert suffixes[..|suffixes|] == suffixes;
  }

  /** `_normalize_name`. */
  method NormalizeName(lib: TextLibrary, name: string) returns (r: string)
    ensures r == NormalizedName(lib, name)
  {
    var text := RemoveEachSuffix(lib.lower(NormalizeText(lib, name)), BusinessSuffixes);
    r := RemoveAll(text, " ");
  }

  /**
   * `name_similarity`: the difflib ratio of the two normalised names; absent
   * when the competing name is absent or empty or either normalised name is empty.
   */
  function NameSimilarity(lib: TextLibrary, googleName: string, tabelogName: Option<string>): (r: Option<real>)
    ensures r.None? <==> tabelogName.None? || tabelogName.value == ""
                         || NormalizedName(lib, googleName) == "" || NormalizedName(lib, tabelogName.value) == ""
    ensures r.Some? ==> 0.0 <= r.value <= 1.0
    ensures r.Some? ==> r.value == lib.ratio(NormalizedName(lib, googleName), NormalizedName(lib, tabelogName.value)) as real
  {
    if tabelogName.None? || tabelogName.value == "" then None
    else
      var g := NormalizedName(lib, googleName);
      var t := NormalizedName(lib, tabelogName.value);
      if g == "" || t == "" then None
      else Some(lib.ratio(g, t) as real)
  }

  /**
   * `_calc_name_similarity`: the code path that normalises both names with
   * the `NormalizeName` loop (a method, which the function `NameSimilarity`
   * cannot call) and then applies the early returns.
   */
  method CalcNameSimilarity(lib: TextLibrary, googleName: string, tabelogName: Option<string>) returns (r: Option<real>)
    ensures r == NameSimilarity(lib, googleName, tabelogName)
  {
    if tabelogName.None? || tabelogName.value == "" {
      return None;
    }
    var g := NormalizeName(lib, googleName);
    var t := NormalizeName(lib, tabelogName.value);
    if g == "" || t == "" {
      return None;
    }
    r := Some(lib.ratio(g, t) as real);
  }

  // ---------------------------------------------------------------- low_star_ratio

  predicate IsLowStar(review: Review) {
    review.rating == 1 || review.rating == 2
  }

  /** How many of the reviews have one or two stars. */
  function LowStarCount(reviews: seq<Review>): (n: nat)
    ensures n <= |reviews|
  {
    if reviews == [] then 0
    else LowStarCount(reviews[..|reviews| - 1]) + (if IsLowStar(reviews[|reviews| - 1]) then 1 else 0)
  }

  /** The count is the whole list when every review has one or two stars, and 0 when none has. */
  lemma {:induction false} LowStarCountAllOrNone(reviews: seq<Review>)
    ensures (forall i :: 0 <= i < |reviews| ==> IsLowStar(reviews[i])) ==> LowStarCount(reviews) == |reviews|
    ensures (forall i :: 0 <= i < |reviews| ==> !IsLowStar(reviews[i])) ==> LowStarCount(reviews) == 0
  {
    if reviews != [] {
      LowStarCountAllOrNone(reviews[..|reviews| - 1]);
    }
  }

  /** `_calc_low_star_ratio`: the share of one- and two-star reviews. */
  function LowStarRatio(reviews: seq<Review>): (r: real)
    ensures 0.0 <= r <= 1.0
    ensures reviews == [] ==> r == 0.0
  {
    Ratio(LowStarCount(reviews), |reviews|)
  }
}
