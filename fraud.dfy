/**
 * `_calc_fraud_stats` (app/scoring.py:140-154): which reviews mention a
 * fraud keyword, and how many reviews mention each keyword. The `Counter`
 * is an insertion-ordered sequence of `KeywordCount` records, because a
 * Python dict keeps keys in the order they were first added and the
 * response lists them in that order: `IncrementAppends` and
 * `KeywordCounterKeepsKeys` state that order.
 */
module FraudStats {
  import opened Models
  import opened TextOps
  import opened Extractors

  const FraudKeywords: seq<string> :=
    ["詐欺", "ぼったくり", "騙された", "騙し", "不正請求", "法外", "高すぎる",
     "scam", "rip-off", "rip off", "fraud"]

  predicate Distinct(keywords: seq<string>) {
    forall i, j :: 0 <= i < j < |keywords| ==> keywords[i] != keywords[j]
  }

  lemma FraudKeywordsDistinct()
    ensures Distinct(FraudKeywords)
  {
  }

  /** A review's text after `_normalize_text(...).lower()`. */
  function NormalizedLower(lib: TextLibrary, text: string): string {
    lib.lower(NormalizeText(lib, text))
  }

  /** `keyword.lower() in normalized`. */
  predicate Mentions(lib: TextLibrary, text: string, keyword: string) {
    Contains(NormalizedLower(lib, text), lib.lower(keyword))
  }

  /** Some keyword of `keywords`, lower-cased, occurs in the normalised text (`matched_any`). */
  predicate MatchesAny(lib: TextLibrary, normalized: string, keywords: seq<string>) {
    exists k :: 0 <= k < |keywords| && Contains(normalized, lib.lower(keywords[k]))
  }

  /** The review text mentions at least one of `keywords`. */
  predicate MentionsAny(lib: TextLibrary, text: string, keywords: seq<string>) {
    MatchesAny(lib, NormalizedLower(lib, text), keywords)
  }

  // ---------------------------------------------------------------- the Counter

  /** `counter[keyword]`: 0 for a keyword that was never added, as with `Counter`. */
  function Lookup(counter: seq<KeywordCount>, keyword: string): int {
    if counter == [] then 0
    else if counter[0].keyword == keyword then counter[0].count
    else Lookup(counter[1..], keyword)
  }

  /** In a counter without repeated keys, looking up an entry's keyword finds that entry's count. */
  lemma {:induction false} LookupEntry(counter: seq<KeywordCount>, i: nat)
    requires i < |counter|
    requires forall a, b :: 0 <= a < b < |counter| ==> counter[a].keyword != counter[b].keyword
    ensures Lookup(counter, counter[i].keyword) == counter[i].count
  {
    if i > 0 {
      assert counter[0].keyword != counter[i].keyword;
      LookupEntry(counter[1..], i - 1);
    }
  }

  /** A keyword with a non-zero count has an entry in the counter. */
  lemma {:induction false} LookupFound(counter: seq<KeywordCount>, keyword: string)
    requires Lookup(counter, keyword) != 0
    ensures exists i :: 0 <= i < |counter| && counter[i].keyword == keyword
  {
    if counter[0].keyword != keyword {
      LookupFound(counter[1..], keyword);
      var i :| 0 <= i < |counter[1..]| && counter[1..][i].keyword == keyword;
      assert counter[i + 1].keyword == keyword;
    }
  }

  /** The sum of all counts. */
  function SumCounts(counter: seq<KeywordCount>): int {
    if counter == [] then 0 else counter[0].count + SumCounts(counter[1..])
  }

  /** `counter[keyword] += 1`: bumps the keyword's entry, or appends a new entry at the end. */
  function Increment(counter: seq<KeywordCount>, keyword: string): (r: seq<KeywordCount>)
    ensures Lookup(r, keyword) == Lookup(counter, keyword) + 1
    ensures forall k :: k != keyword ==> Lookup(r, k) == Lookup(counter, k)
    ensures SumCounts(r) == SumCounts(counter) + 1
  {
    if counter == [] then [KeywordCount(keyword, 1)]
    else if counter[0].keyword == keyword then [counter[0].(count := counter[0].count + 1)] + counter[1..]
    else [counter[0]] + Increment(counter[1..], keyword)
  }

  /** `d` has every key of `c` at the same position as in `c`, and may have more keys after them. */
  predicate KeysExtend(c: seq<KeywordCount>, d: seq<KeywordCount>) {
    |c| <= |d| && forall j :: 0 <= j < |c| ==> d[j].keyword == c[j].keyword
  }

  /** A keyword that is not yet in the counter is appended at the end with count 1. */
  lemma {:induction false} IncrementAppends(counter: seq<KeywordCount>, keyword: string)
    requires forall i :: 0 <= i < |counter| ==> counter[i].keyword != keyword
    ensures Increment(counter, keyword) == counter + [KeywordCount(keyword, 1)]
  {
    if counter != [] {
      IncrementAppends(counter[1..], keyword);
      assert counter == [counter[0]] + counter[1..];
    }
  }

  /** Incrementing never moves a key that is already in the counter. */
  lemma {:induction false} IncrementKeepsKeys(counter: seq<KeywordCount>, keyword: string)
    ensures KeysExtend(counter, Increment(counter, keyword))
  {
    if counter != [] && counter[0].keyword != keyword {
      var rest := Increment(counter[1..], keyword);
      IncrementKeepsKeys(counter[1..], keyword);
      assert forall j :: 0 < j < |counter| ==> Increment(counter, keyword)[j] == rest[j - 1];
    }
  }

  /** Every key is one of `keys`, no key repeats, and every count is positive. */
  ghost predicate WellFormed(counter: seq<KeywordCount>, keys: seq<string>) {
    (forall i :: 0 <= i < |counter| ==> counter[i].keyword in keys && counter[i].count > 0)
    && (forall i, j :: 0 <= i < j < |counter| ==> counter[i].keyword != counter[j].keyword)
  }

  /** Incrementing another keyword does not add `k` to a counter that lacks it. */
  lemma {:induction false} IncrementAbsent(counter: seq<KeywordCount>, keyword: string, k: string)
    requires k != keyword
    requires forall i :: 0 <= i < |counter| ==> counter[i].keyword != k
    ensures forall i :: 0 <= i < |Increment(counter, keyword)| ==> Increment(counter, keyword)[i].keyword != k
  {
    if counter != [] && counter[0].keyword != keyword {
      IncrementAbsent(counter[1..], keyword, k);
    }
  }

  /** Incrementing one of `keys` keeps the counter's keys distinct members of `keys` with positive counts. */
  lemma {:induction false} IncrementWellFormed(counter: seq<KeywordCount>, keyword: string, keys: seq<string>)
    requires WellFormed(counter, keys)
    requires keyword in keys
    ensures WellFormed(Increment(counter, keyword), keys)
  {
    var r := Increment(counter, keyword);
    if counter == [] {
    } else if counter[0].keyword == keyword {
      assert forall i :: 0 < i < |r| ==> r[i] == counter[i];
    } else {
      var rest := Increment(counter[1..], keyword);
      IncrementWellFormed(counter[1..], keyword, keys);
      IncrementAbsent(counter[1..], keyword, counter[0].keyword);
      assert forall i :: 0 < i < |r| ==> r[i] == rest[i - 1];
    }
  }

  // ---------------------------------------------------------------- one review

  /** The counter after the keyword loop has visited `keywords` for one normalised text. */
  function TallyKeywords(lib: TextLibrary, normalized: string, keywords: seq<string>,
                         counter: seq<KeywordCount>): seq<KeywordCount>
  {
    if keywords == [] then counter
    else
      var c := TallyKeywords(lib, normalized, keywords[..|keywords| - 1], counter);
      if Contains(normalized, lib.lower(keywords[|keywords| - 1])) then Increment(c, keywords[|keywords| - 1]) else c
  }

  /** One review adds exactly 1 to each distinct keyword it mentions and nothing to the others. */
  lemma {:induction false} TallyKeywordsLookup(lib: TextLibrary, normalized: string, keywords: seq<string>,
                                              counter: seq<KeywordCount>, k: string)
    requires Distinct(keywords)
    ensures Lookup(TallyKeywords(lib, normalized, keywords, counter), k)
            == Lookup(counter, k) + (if k in keywords && Contains(normalized, lib.lower(k)) then 1 else 0)
  {
    if keywords != [] {
      var init := keywords[..|keywords| - 1];
      TallyKeywordsLookup(lib, normalized, init, counter, k);
      assert keywords == init + [keywords[|keywords| - 1]];
      if k == keywords[|keywords| - 1] {
        assert k !in init;
      }
    }
  }

  /** A review that mentions some keyword adds at least 1 to the sum of the counts. */
  lemma {:induction false} TallyKeywordsSum(lib: TextLibrary, normalized: string, keywords: seq<string>,
                                           counter: seq<KeywordCount>)
    ensures SumCounts(TallyKeywords(lib, normalized, keywords, counter)) >= SumCounts(counter)
    ensures MatchesAny(lib, normalized, keywords) ==>
            SumCounts(TallyKeywords(lib, normalized, keywords, counter)) >= SumCounts(counter) + 1
  {
    if keywords != [] {
      var init := keywords[..|keywords| - 1];
      TallyKeywordsSum(lib, normalized, init, counter);
      if MatchesAny(lib, normalized, keywords) {
        var k :| 0 <= k < |keywords| && Contains(normalized, lib.lower(keywords[k]));
        if k < |init| {
          assert init[k] == keywords[k];
        }
      }
    }
  }

  lemma {:induction false} TallyKeywordsWellFormed(lib: TextLibrary, normalized: string, keywords: seq<string>,
                                                  counter: seq<KeywordCount>, keys: seq<string>)
    requires WellFormed(counter, keys)
    requires forall k :: 0 <= k < |keywords| ==> keywords[k] in keys
    ensures WellFormed(TallyKeywords(lib, normalized, keywords, counter), keys)
  {
    if keywords != [] {
      TallyKeywordsWellFormed(lib, normalized, keywords[..|keywords| - 1], counter, keys);
      var c := TallyKeywords(lib, normalized, keywords[..|keywords| - 1], counter);
      IncrementWellFormed(c, keywords[|keywords| - 1], keys);
    }
  }

  /**
   * The inner loop of `_calc_fraud_stats` for one review's normalised text:
   * bumps the counter once per keyword the text contains, and reports
   * whether any keyword matched (`matched_any`).
   */
  method TallyReview(lib: TextLibrary, normalized: string, keywords: seq<string>, counter: seq<KeywordCount>)
    returns (counter': seq<KeywordCount>, matchedAny: bool)
    ensures counter' == TallyKeywords(lib, normalized, keywords, counter)
    ensures matchedAny <==> MatchesAny(lib, normalized, keywords)
  {
    counter' := counter;
    matchedAny := false;
    for j := 0 to |keywords|
      invariant counter' == TallyKeywords(lib, normalized, keywords[..j], counter)
      invariant matchedAny <==> exists k :: 0 <= k < j && Contains(normalized, lib.lower(keywords[k]))
    {
      assert keywords[..j + 1][..j] == keywords[..j];
      if Contains(normalized, lib.lower(keywords[j])) {
        counter' := Increment(counter', keywords[j]);
        matchedAny := true;
      }
    }
    assert keywords[..|keywords|] == keywords;
  }

  /** One review never moves a key that is already in the counter. */
  lemma {:induction false} TallyKeywordsKeepsKeys(lib: TextLibrary, normalized: string, keywords: seq<string>,
                                                 counter: seq<KeywordCount>)
    ensures KeysExtend(counter, TallyKeywords(lib, normalized, keywords, counter))
  {
    if keywords != [] {
      var init := keywords[..|keywords| - 1];
      TallyKeywordsKeepsKeys(lib, normalized, init, counter);
      IncrementKeepsKeys(TallyKeywords(lib, normalized, init, counter), keywords[|keywords| - 1]);
    }
  }

  // ---------------------------------------------------------------- all reviews

  /** `hit_reviews` after the loop has visited `reviews`. */
  function HitCount(lib: TextLibrary, reviews: seq<Review>, keywords: seq<string>): (n: nat)
    ensures n <= |reviews|
  {
    if reviews == [] then 0
    else
      HitCount(lib, reviews[..|reviews| - 1], keywords)
      + (if MentionsAny(lib, reviews[|reviews| - 1].text, keywords) then 1 else 0)
  }

  /** `keyword_counts` after the loop has visited `reviews`. */
  function KeywordCounter(lib: TextLibrary, reviews: seq<Review>, keywords: seq<string>): seq<KeywordCount> {
    if reviews == [] then []
    else
      TallyKeywords(lib, NormalizedLower(lib, reviews[|reviews| - 1].text), keywords,
                    KeywordCounter(lib, reviews[..|reviews| - 1], keywords))
  }

  /** Every review is a hit when every review mentions a keyword, and none is when none does. */
  lemma {:induction false} HitsAllOrNone(lib: TextLibrary, reviews: seq<Review>, keywords: seq<string>)
    ensures (forall i :: 0 <= i < |reviews| ==> MentionsAny(lib, reviews[i].text, keywords)) ==>
            HitCount(lib, reviews, keywords) == |reviews|
    ensures (forall i :: 0 <= i < |reviews| ==> !MentionsAny(lib, reviews[i].text, keywords)) ==>
            HitCount(lib, reviews, keywords) == 0
  {
    if reviews != [] {
      var init := reviews[..|reviews| - 1];
      assert forall i :: 0 <= i < |init| ==> init[i] == reviews[i];
      HitsAllOrNone(lib, init, keywords);
    }
  }

  /** `(fraud_keyword_ratio, keyword_counts)`: the share of reviews with a hit, and the counter. */
  function FraudStatsOf(lib: TextLibrary, reviews: seq<Review>): (r: (real, seq<KeywordCount>))
    ensures 0.0 <= r.0 <= 1.0
    ensures reviews == [] ==> r.0 == 0.0 && r.1 == []
  {
    if |reviews| == 0 then (0.0, [])
    else
      (Ratio(HitCount(lib, reviews, FraudKeywords), |reviews|), KeywordCounter(lib, reviews, FraudKeywords))
  }

  /** `_calc_fraud_stats`: a loop over the reviews counting hits and keywords. */
  method CalcFraudStats(lib: TextLibrary, reviews: seq<Review>) returns (ratio: real, counter: seq<KeywordCount>)
    ensures (ratio, counter) == FraudStatsOf(lib, reviews)
  {
    if |reviews| == 0 {
      return 0.0, [];
    }
    counter := [];
    var hitReviews := 0;
    for i := 0 to |reviews|
      invariant hitReviews == HitCount(lib, reviews[..i], FraudKeywords)
      invariant counter == KeywordCounter(lib, reviews[..i], FraudKeywords)
    {
      assert reviews[..i + 1][..i] == reviews[..i];
      var normalized := lib.lower(NormalizeText(lib, reviews[i].text));
      var matchedAny;
      counter, matchedAny := TallyReview(lib, normalized, FraudKeywords, counter);
      if matchedAny {
        hitReviews := hitReviews + 1;
      }
    }
    assert reviews[..|reviews|] == reviews;
    ratio := hitReviews as real / |reviews| as real;
  }

  /**
   * Insertion order: the keys of the counter after the first `i` reviews
   * keep their positions in the counter after all reviews, so a keyword's
   * position is fixed by the first review that mentions it.
   */
  lemma {:induction false} KeywordCounterKeepsKeys(lib: TextLibrary, reviews: seq<Review>, keywords: seq<string>,
                                                  i: nat)
    requires i <= |reviews|
    ensures KeysExtend(KeywordCounter(lib, reviews[..i], keywords), KeywordCounter(lib, reviews, keywords))
  {
    if i == |reviews| {
      assert reviews[..i] == reviews;
    } else {
      var init := reviews[..|reviews| - 1];
      assert init[..i] == reviews[..i];
      KeywordCounterKeepsKeys(lib, init, keywords, i);
      TallyKeywordsKeepsKeys(lib, NormalizedLower(lib, reviews[|reviews| - 1].text), keywords,
                             KeywordCounter(lib, init, keywords));
    }
  }

  // ---------------------------------------------------------------- what the counts mean

  /** How many reviews mention `keyword`. */
  function MentionCount(lib: TextLibrary, reviews: seq<Review>, keyword: string): (n: nat)
    ensures n <= |reviews|
  {
    if reviews == [] then 0
    else
      MentionCount(lib, reviews[..|reviews| - 1], keyword)
      + (if Mentions(lib, reviews[|reviews| - 1].text, keyword) then 1 else 0)
  }

  /**
   * For a list of distinct keywords, the counter holds, for each keyword,
   * the number of reviews that mention it (each review adds at most 1 per
   * keyword), and nothing for any other string; its keys are distinct
   * members of the list with positive counts; and the reviews with a hit
   * are no more than the sum of the counts.
   */
  lemma FraudTallyMeaning(lib: TextLibrary, reviews: seq<Review>, keywords: seq<string>)
    requires Distinct(keywords)
    ensures forall k :: Lookup(KeywordCounter(lib, reviews, keywords), k)
                        == if k in keywords then MentionCount(lib, reviews, k) else 0
    ensures WellFormed(KeywordCounter(lib, reviews, keywords), keywords)
    ensures HitCount(lib, reviews, keywords) <= SumCounts(KeywordCounter(lib, reviews, keywords))
  {
    FraudTallyLookup(lib, reviews, keywords);
    FraudTallyWellFormed(lib, reviews, keywords);
    FraudTallySum(lib, reviews, keywords);
  }

  lemma {:induction false} FraudTallyLookup(lib: TextLibrary, reviews: seq<Review>, keywords: seq<string>)
    requires Distinct(keywords)
    ensures forall k :: Lookup(KeywordCounter(lib, reviews, keywords), k)
                        == if k in keywords then MentionCount(lib, reviews, k) else 0
  {
    if reviews != [] {
      var init := reviews[..|reviews| - 1];
      var text := reviews[|reviews| - 1].text;
      var prev := KeywordCounter(lib, init, keywords);
      FraudTallyLookup(lib, init, keywords);
      forall k ensures Lookup(KeywordCounter(lib, reviews, keywords), k)
                       == if k in keywords then MentionCount(lib, reviews, k) else 0 {
        TallyKeywordsLookup(lib, NormalizedLower(lib, text), keywords, prev, k);
      }
    }
  }

  lemma {:induction false} FraudTallyWellFormed(lib: TextLibrary, reviews: seq<Review>, keywords: seq<string>)
    ensures WellFormed(KeywordCounter(lib, reviews, keywords), keywords)
  {
    if reviews != [] {
      var init := reviews[..|reviews| - 1];
      var text := reviews[|reviews| - 1].text;
      FraudTallyWellFormed(lib, init, keywords);
      TallyKeywordsWellFormed(lib, NormalizedLower(lib, text), keywords, KeywordCounter(lib, init, keywords),
                              keywords);
    }
  }

  lemma {:induction false} FraudTallySum(lib: TextLibrary, reviews: seq<Review>, keywords: seq<string>)
    ensures HitCount(lib, reviews, keywords) <= SumCounts(KeywordCounter(lib, reviews, keywords))
  {
    if reviews != [] {
      var init := reviews[..|reviews| - 1];
      var text := reviews[|reviews| - 1].text;
      FraudTallySum(lib, init, keywords);
      TallyKeywordsSum(lib, NormalizedLower(lib, text), keywords, KeywordCounter(lib, init, keywords));
    }
  }

  /** A review that mentions one of the keywords is a hit, so no keyword's count exceeds the hits. */
  lemma {:induction false} MentionCountAtMostHits(lib: TextLibrary, reviews: seq<Review>, keywords: seq<string>,
                                                 keyword: string)
    requires keyword in keywords
    ensures MentionCount(lib, reviews, keyword) <= HitCount(lib, reviews, keywords)
  {
    if reviews != [] {
      MentionCountAtMostHits(lib, reviews[..|reviews| - 1], keywords, keyword);
      var text := reviews[|reviews| - 1].text;
      if Mentions(lib, text, keyword) {
        var k :| 0 <= k < |keywords| && keywords[k] == keyword;
        assert MatchesAny(lib, NormalizedLower(lib, text), keywords);
      }
    }
  }

  /**
   * The fraud statistics: every keyword's count is at most the number of
   * reviews with a hit, which is at most the number of reviews and at most
   * the sum of all keyword counts.
   */
  lemma FraudTallyBounds(lib: TextLibrary, reviews: seq<Review>, keywords: seq<string>)
    requires Distinct(keywords)
    ensures forall k :: Lookup(KeywordCounter(lib, reviews, keywords), k) <= HitCount(lib, reviews, keywords)
    ensures HitCount(lib, reviews, keywords) <= |reviews|
    ensures HitCount(lib, reviews, keywords) <= SumCounts(KeywordCounter(lib, reviews, keywords))
  {
    FraudTallyLookup(lib, reviews, keywords);
    FraudTallySum(lib, reviews, keywords);
    forall k ensures Lookup(KeywordCounter(lib, reviews, keywords), k) <= HitCount(lib, reviews, keywords) {
      if k in keywords {
        MentionCountAtMostHits(lib, reviews, keywords, k);
      }
    }
  }

  // ---------------------------------------------------------------- the response list

  /** `[FraudKeywordCount(k, c) for k, c in counter.items() if c > 0]`. */
  function PositiveCounts(counter: seq<KeywordCount>): (r: seq<KeywordCount>)
    ensures forall i :: 0 <= i < |r| ==> r[i].count > 0 && r[i] in counter
    ensures forall e :: e in counter && e.count > 0 ==> e in r
  {
    if counter == [] then []
    else (if counter[0].count > 0 then [counter[0]] else []) + PositiveCounts(counter[1..])
  }

  /** The counter's counts are all positive already, so the filter keeps every entry in order. */
  lemma {:induction false} PositiveCountsKeepsAll(counter: seq<KeywordCount>)
    requires forall i :: 0 <= i < |counter| ==> counter[i].count > 0
    ensures PositiveCounts(counter) == counter
  {
    if counter != [] {
      PositiveCountsKeepsAll(counter[1..]);
    }
  }
}
