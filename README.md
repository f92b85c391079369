# Review-risk scoring engine of insyoku_sakura, in Dafny

insyoku_sakura looks at the Google Maps reviews of a restaurant and estimates
two risks. The first is *sakura*, fabricated or paid praise. The second is
*fraud*, meaning customers reporting scams or overcharging. This project
models the scoring engine `app/scoring.py`, which does this in three steps:

- It turns the reviews and optional data from a competing review site
  (Tabelog) into seven signals: the short five-star ratio, the seven-day
  burst ratio, the rating difference, "Tabelog missing", the name
  similarity, the low-star ratio and the fraud-keyword ratio.
- It combines the signals into two clamped integer scores in 0..100 and
  assigns a three-level risk label.
- It lists the fraud keywords found and writes the Japanese explanatory
  comments.

The Dafny files follow the source's structure:

| file | module | models |
|---|---|---|
| `text.dfy` | `TextOps` | `_normalize_text`, Python's `str.strip`, substring `in` and `str.replace(pat, "")` |
| `models.dfy` | `Models` | the records of `app/models.py`, the risk label and the comments |
| `window.dfy` | `BurstWindow` | the sorted-timestamp deque sweep of `_calc_burst_ratio` |
| `extractors.dfy` | `Extractors` | `_calc_short_5_ratio`, `_calc_burst_ratio`, `_calc_rating_diff`, `_calc_name_similarity`, `_normalize_name`, `_calc_low_star_ratio` |
| `fraud.dfy` | `FraudStats` | `_calc_fraud_stats`, its `Counter`, and the response's positive-count filter |
| `scores.dfy` | `Scoring` | `clamp`, `_calc_sakura_score`, `_calc_fraud_score`, Python's `round` and `int`, `_calc_risk_label`, `_build_comments` |
| `analysis.dfy` | `Analysis` | `analyze_place` and the scenarios of `tests/test_scoring.py` |

Each source loop is a `method` whose postcondition equals a specification
function. This covers the short five-star count, the deque sweep, the
suffix loop of `_normalize_name`, the two nested fraud-keyword loops,
`_build_comments` and `analyze_place` itself. The properties are proved
about those functions. The loops change only local variables, so there
are no classes.

The keyword tally of `_calc_fraud_stats` is defined and proved for any list
of keywords. `FraudStatsOf` and `CalcFraudStats` use the list
`FRAUD_KEYWORDS` (app/scoring.py:11-23), which `FraudKeywordsDistinct`
shows has no repeats. So the facts about the tally hold for the list the
engine uses.

Some behaviour comes from libraries whose code is not part of this model:
Unicode NFKC normalisation, `str.lower` and difflib's `SequenceMatcher.ratio`.
These are fields of a `TextLibrary` value that every operation takes as a
parameter. The ratio's result type is the interval [0, 1].

Some Python built-ins are written out concretely because their behaviour
matters to the scores:

- `str.strip` and its set of whitespace characters
- `in` on strings
- `str.replace`
- `sorted`, as an insertion sort proved to be an ordered permutation
- `round`, which rounds halves to even
- `int()` on a float, which truncates toward zero

Timestamps are integers counting microseconds, the resolution of Python's
`datetime`, so one week is `7 * 24 * 60 * 60 * 1000000`.

## Model

| member | source | states |
|---|---|---|
| TextOps.TrimStart | app/scoring.py:77-78 | dropping leading whitespace leaves a suffix of the text, cuts only whitespace, and stops at a non-space character |
| TextOps.TrimEnd | app/scoring.py:77-78 | dropping trailing whitespace leaves a prefix of the text, cuts only whitespace, and stops at a non-space character |
| TextOps.TrimBothSurrounded | app/scoring.py:77-78 | trimming both ends leaves whitespace, then the result, then whitespace |
| TextOps.SurroundsCompose | app/scoring.py:77-78 | cutting leading and then trailing whitespace splits the text into whitespace, the result and whitespace |
| TextOps.Strip | app/scoring.py:77-78 | the result is a contiguous slice of the input, only whitespace is cut from either end, and neither end of a non-empty result is whitespace |
| TextOps.StripIdempotent | app/scoring.py:77-78 | stripping an already stripped text changes nothing |
| TextOps.NormalizeText | app/scoring.py:77-78 | `_normalize_text`: the result is the NFKC form with whitespace cut from both ends only, and neither end of a non-empty result is whitespace |
| TextOps.Contains | app/scoring.py:149 | defines `sub in s`; `ContainsIff` characterises it |
| TextOps.ContainsIff | app/scoring.py:149 | `keyword in normalized` holds exactly when the keyword occurs at some position of the text |
| TextOps.RemoveAll | app/scoring.py:129-130 | removing every occurrence of a pattern never lengthens the text |
| TextOps.RemoveAllChar | app/scoring.py:130 | after `replace(" ", "")` no space is left |
| TextOps.RemoveAllAbsent | app/scoring.py:129 | removing a pattern that does not occur leaves the text unchanged |
| Models.RiskLabel.Name | app/scoring.py:188-193 | defines the label strings "high", "medium" and "low" |
| Models.Comment.Text | app/scoring.py:204-212 | defines the five Japanese comment sentences, the first with the truncated percentage |
| Models.IntToDecimal | app/scoring.py:204 | defines `str()` of an integer, a minus sign before the digits of a negative one |
| Models.NatToDecimal | app/scoring.py:205 | `str()` of a non-negative integer is a non-empty string of decimal digits |
| Models.NatToDecimalRoundTrip | app/scoring.py:205 | the rendered digits read back as the same number |
| BurstWindow.Insert | app/scoring.py:96 | inserting into a sorted list keeps it sorted and adds exactly that element |
| BurstWindow.SortAscending | app/scoring.py:96 | `sorted` returns an ascending permutation of its input |
| BurstWindow.CountAtLeast | app/scoring.py:104-105 | the timestamps at or after a cutoff are at most all of them |
| BurstWindow.CountAtLeastSplit | app/scoring.py:104-105 | in a sorted prefix, eviction from the front leaves exactly the timestamps at or after the cutoff |
| BurstWindow.BestWindow | app/scoring.py:100-106 | `max_in_window` after n timestamps is at most n, and at least 1 once a timestamp has been seen |
| BurstWindow.EvictionLeavesWindow | app/scoring.py:103-105 | once the timestamps more than a week older than the current one are evicted from the front, the deque holds exactly the current window |
| BurstWindow.MaxWindowSize | app/scoring.py:99-106 | the deque sweep over sorted timestamps computes the largest window size, with the invariant that the deque is the contiguous run of visited timestamps no older than one week before the current one |
| BurstWindow.WholeWeekWindow | app/scoring.py:101-106 | when every timestamp lies within a week of the last, the last window holds all of them |
| BurstWindow.CountBetween | app/scoring.py:93-107 | the timestamps inside a closed interval are at most all of them |
| BurstWindow.CountBetweenAppend | app/scoring.py:93-107 | interval counts add up over concatenation |
| BurstWindow.CountBetweenPermutation | app/scoring.py:96 | sorting does not change how many timestamps fall into any interval |
| BurstWindow.CountBetweenAtMostAtLeast | app/scoring.py:104 | the timestamps in an interval are at most those after its lower end |
| BurstWindow.CountBetweenNone | app/scoring.py:93-107 | an interval ending before every timestamp is empty |
| BurstWindow.CountAtLeastSorted | app/scoring.py:104-105 | when no timestamp is past `ts`, counting from the cutoff is counting in the week ending at `ts` |
| BurstWindow.BestWindowAtLeast | app/scoring.py:106 | `max_in_window` is at least every window the sweep has seen |
| BurstWindow.BestWindowWitness | app/scoring.py:106 | `max_in_window` is the size of some window the sweep has seen |
| BurstWindow.SplitAfter | app/scoring.py:96 | a sorted list splits into the timestamps up to an instant and those after it |
| BurstWindow.WeekWithinPrefix | app/scoring.py:93-107 | timestamps after the week's end do not count towards it |
| BurstWindow.PrefixWithinBest | app/scoring.py:99-106 | a week ending at or after the last of the visited timestamps holds no more of them than the sweep's maximum |
| BurstWindow.EveryWeekWithinBest | app/scoring.py:99-106 | no closed one-week interval holds more timestamps than the sweep's maximum |
| BurstWindow.CountBetweenPrefix | app/scoring.py:93-107 | a prefix has no more timestamps in an interval than the whole list |
| BurstWindow.BusiestWeekAttained | app/scoring.py:99-106 | some one-week interval holds as many timestamps as the sweep's maximum |
| BurstWindow.BestWindowIsBusiestWeek | app/scoring.py:99-106 | the sweep's maximum is exactly the largest number of timestamps in any closed one-week interval |
| Extractors.Ratio | app/scoring.py:90 | `count / total` lies in [0, 1], is 0 for no reviews, multiplies back to the count, and is 1 when every review counts |
| Extractors.IsShortFiveStar | app/scoring.py:86-88 | defines a short five-star review: five stars and at most 15 characters once normalised |
| Extractors.ShortFiveCount | app/scoring.py:84-89 | the short five-star reviews are at most all reviews |
| Extractors.ShortFiveCountAllOrNone | app/scoring.py:84-89 | the count is every review when all are short five-star, and 0 when none is |
| Extractors.Short5Ratio | app/scoring.py:81-90 | `short_5_ratio` lies in [0, 1] and is 0 for no reviews |
| Extractors.CalcShort5Ratio | app/scoring.py:81-90 | the counting loop computes `Short5Ratio` |
| Extractors.TimesOf | app/scoring.py:96 | the timestamp list has one entry per review, in review order |
| Extractors.BurstRatio | app/scoring.py:93-107 | `burst_7day_ratio` lies in [0, 1] and is 0 below five reviews |
| Extractors.CalcBurstRatio | app/scoring.py:93-107 | sorting and the deque sweep compute `BurstRatio` |
| Extractors.SortedWithinWeek | app/scoring.py:96 | sorting keeps any two timestamps within a week of each other when all review pairs were |
| Extractors.BurstOfOneWeek | app/scoring.py:93-107 | five or more reviews all posted within one week give a burst ratio of 1 |
| Extractors.SortedWeekCount | app/scoring.py:96 | the reviews in a week are counted the same on sorted timestamps |
| Extractors.BurstRatioIsBusiestWeek | app/scoring.py:93-107 | from five reviews up, ratio × reviews is the largest number of reviews posted in any closed one-week interval, and some such week attains it |
| Extractors.RatingDiff | app/scoring.py:110-113 | the difference is absent exactly when either rating is, and is otherwise Google minus Tabelog |
| Extractors.NormalizedName | app/scoring.py:126-130 | a normalised name contains no space |
| Extractors.RemoveSuffixes | app/scoring.py:128-129 | defines the suffix removals in list order; `RemoveSuffixesAbsent` and `RemoveEachSuffix` are its partners |
| Extractors.RemoveSuffixesAbsent | app/scoring.py:128-129 | a text containing none of the suffixes passes the suffix loop unchanged |
| Extractors.PlainNameUnchanged | app/scoring.py:126-130 | a name without suffixes or spaces normalises to its lower-cased normal form |
| Extractors.RemoveEachSuffix | app/scoring.py:128-129 | the suffix loop computes `RemoveSuffixes` |
| Extractors.NormalizeName | app/scoring.py:126-130 | the suffix loop computes `NormalizedName` |
| Extractors.NameSimilarity | app/scoring.py:116-123 | the similarity is absent exactly when the Tabelog name is absent or empty or either normalised name is empty, and otherwise is the library ratio of the two normalised names, in [0, 1] |
| Extractors.CalcNameSimilarity | app/scoring.py:116-123 | the early-return code computes `NameSimilarity` |
| Extractors.IsLowStar | app/scoring.py:136 | defines a low-star review: one or two stars |
| Extractors.LowStarCount | app/scoring.py:136 | the one- and two-star reviews are at most all reviews |
| Extractors.LowStarCountAllOrNone | app/scoring.py:136 | the count is every review when all have one or two stars, and 0 when none has |
| Extractors.LowStarRatio | app/scoring.py:133-137 | `low_star_ratio` lies in [0, 1] and is 0 for no reviews |
| FraudStats.Mentions | app/scoring.py:146-149 | defines "the lower-cased keyword occurs in the normalised, lower-cased text" |
| FraudStats.MentionsAny | app/scoring.py:146-151 | defines `matched_any` for a review: some keyword of the list is mentioned |
| FraudStats.Lookup | app/scoring.py:150 | defines `counter[keyword]`, 0 for a missing key; `LookupEntry` and `LookupFound` are its partners |
| FraudStats.FraudKeywordsDistinct | app/scoring.py:11-23 | the keyword list has no repeats |
| FraudStats.LookupEntry | app/scoring.py:72 | in a counter without repeated keys, an entry's keyword looks up that entry's count |
| FraudStats.LookupFound | app/scoring.py:72 | a keyword with a non-zero count has an entry in the counter |
| FraudStats.Increment | app/scoring.py:150 | `counter[keyword] += 1` adds one to that keyword, leaves every other keyword alone and adds one to the total |
| FraudStats.IncrementAbsent | app/scoring.py:150 | incrementing one keyword does not add any other keyword to the counter |
| FraudStats.IncrementAppends | app/scoring.py:150 | a keyword that is not yet in the counter is appended at the end with count 1 |
| FraudStats.IncrementKeepsKeys | app/scoring.py:150 | incrementing never moves a key that is already in the counter |
| FraudStats.IncrementWellFormed | app/scoring.py:150 | incrementing one of the keywords keeps the keys distinct members of the keyword list with positive counts |
| FraudStats.TallyKeywords | app/scoring.py:148-151 | defines the counter after the keyword loop over one review |
| FraudStats.TallyKeywordsLookup | app/scoring.py:148-151 | one review adds 1 to each keyword it contains and nothing to any other string |
| FraudStats.TallyKeywordsSum | app/scoring.py:148-153 | one review never lowers the total count, and raises it when it matches any keyword |
| FraudStats.TallyKeywordsWellFormed | app/scoring.py:148-151 | one review keeps the counter's keys distinct members of the keyword list with positive counts |
| FraudStats.TallyKeywordsKeepsKeys | app/scoring.py:148-151 | one review never moves a key that is already in the counter |
| FraudStats.HitCount | app/scoring.py:143-153 | `hit_reviews` is at most the number of reviews |
| FraudStats.KeywordCounter | app/scoring.py:143-151 | defines `keyword_counts` after the loop over the reviews |
| FraudStats.HitsAllOrNone | app/scoring.py:145-153 | every review is a hit when every review mentions a keyword, and none is when none does |
| FraudStats.FraudStatsOf | app/scoring.py:140-154 | `fraud_keyword_ratio` lies in [0, 1], and no reviews give ratio 0 and an empty counter |
| FraudStats.TallyReview | app/scoring.py:146-151 | the inner keyword loop updates the counter as `TallyKeywords` says, and `matched_any` holds exactly when some keyword of the list occurs |
| FraudStats.CalcFraudStats | app/scoring.py:140-154 | the nested loops compute `FraudStatsOf` |
| FraudStats.KeywordCounterKeepsKeys | app/scoring.py:143-151 | insertion order: the keys of the counter after the first i reviews keep their positions in the counter after all reviews |
| FraudStats.MentionCount | app/scoring.py:145-151 | the reviews mentioning a keyword are at most all reviews |
| FraudStats.FraudTallyMeaning | app/scoring.py:143-153 | for a list of distinct keywords, every keyword's count is the number of reviews mentioning it, every other string counts 0, the keys are distinct keywords of the list with positive counts, and the hits are at most the sum of the counts |
| FraudStats.FraudTallyLookup | app/scoring.py:143-153 | for distinct keywords, each keyword's count is the number of reviews mentioning it and every other string counts 0 |
| FraudStats.FraudTallyWellFormed | app/scoring.py:143-153 | the counter's keys are distinct members of the keyword list with positive counts |
| FraudStats.FraudTallySum | app/scoring.py:143-153 | the reviews with a hit are at most the sum of the counts |
| FraudStats.MentionCountAtMostHits | app/scoring.py:145-153 | no keyword is mentioned by more reviews than there are hits |
| FraudStats.FraudTallyBounds | app/scoring.py:143-154 | every keyword's count ≤ hits ≤ number of reviews, and hits ≤ sum of all counts |
| FraudStats.PositiveCounts | app/scoring.py:72 | the filter keeps exactly the counter's entries with a positive count |
| FraudStats.PositiveCountsKeepsAll | app/scoring.py:72 | on a counter whose counts are all positive the filter keeps every entry in order |
| Scoring.Clamp | app/scoring.py:27-28 | the result lies in [lo, hi] when lo ≤ hi, equals x when x is inside, and is never below lo |
| Scoring.ClampMonotone | app/scoring.py:27-28 | clamping preserves order |
| Scoring.RoundHalfEven | app/scoring.py:177 | `round` is within 0.5 of its argument, picks the even integer on a tie, and is non-negative on non-negative input |
| Scoring.RoundNearest | app/scoring.py:177 | a number strictly within 0.5 of an integer rounds to it |
| Scoring.RoundMonotone | app/scoring.py:177 | rounding preserves order |
| Scoring.ShortPoints | app/scoring.py:167 | the short five-star term lies in [0, 40], is 40 from a ratio of 0.4 and 0 for a ratio of 0 |
| Scoring.BurstPoints | app/scoring.py:168 | the burst term lies in [0, 25], is 25 from a ratio of 0.25 and 0 for a ratio of 0 |
| Scoring.RatingDiffPoints | app/scoring.py:169-170 | the rating-gap term lies in [0, 20], is 0 without a positive gap and 20 once the gap times 15 reaches 20 |
| Scoring.NamePoints | app/scoring.py:173-174 | the name term lies in [0, 15] and is 0 without a competing name or for identical names |
| Scoring.SakuraPoints | app/scoring.py:166-176 | the sakura accumulator is between 0 and 40 + 25 + 20 + 5 + 15 + 10 |
| Scoring.SakuraScore | app/scoring.py:157-177 | `sakura_score` is an integer in 0..100 |
| Scoring.RatingDiffPointsMonotone | app/scoring.py:169-170 | a larger rating gap never earns fewer points |
| Scoring.NamePointsAntitone | app/scoring.py:173-174 | a more similar competing name never earns more points |
| Scoring.SakuraPointsMonotone | app/scoring.py:166-176 | the accumulator before rounding never decreases when the ratios or the gap rise, "missing" is set or the similarity falls |
| Scoring.SakuraScoreMonotone | app/scoring.py:157-177 | raising any of the ratios or the gap, setting "missing", or lowering the similarity never lowers the sakura score |
| Scoring.SakuraScoreSaturated | app/scoring.py:157-177 | saturated short five-star, burst and gap terms with twenty clean reviews give at least 95 |
| Scoring.SakuraScoreQuiet | app/scoring.py:157-177 | with no short five-star reviews, a gap of at most 0.5, the same name and under twenty reviews, the score is at most 32 |
| Scoring.FraudPoints | app/scoring.py:181-184 | the fraud accumulator lies in [0, 100] |
| Scoring.FraudScore | app/scoring.py:180-185 | `fraud_score` is an integer in 0..100 |
| Scoring.FraudScoreMonotone | app/scoring.py:180-185 | a larger keyword ratio never lowers the fraud score |
| Scoring.FraudScoreMaximal | app/scoring.py:180-185 | the fraud score is 100 exactly when at least ten reviews are at least 30% low-star and at least 44.75% of the reviews hit a keyword |
| Scoring.FraudScoreNone | app/scoring.py:180-185 | no keyword hits and under ten reviews give fraud score 0 |
| Scoring.RiskLabelOf | app/scoring.py:188-193 | high exactly when a score is ≥ 70, medium exactly when neither is ≥ 70 but one is ≥ 40, low exactly when both are < 40 |
| Scoring.RiskLabelMonotone | app/scoring.py:188-193 | higher scores never give a lower label |
| Scoring.Truncate | app/scoring.py:205 | `int()` truncates toward zero |
| Scoring.When | app/scoring.py:203-213 | a conditional append adds exactly the one comment when its condition holds and nothing otherwise |
| Scoring.CommentsFor | app/scoring.py:196-214 | at most five comments, in the fixed order, none repeated |
| Scoring.CommentsForContents | app/scoring.py:196-214 | each comment is present exactly when its threshold is met, a short five-star comment of any percentage appears exactly when its ratio is at least 0.4, and the list is empty exactly when none is met |
| Scoring.CommentsForMembers | app/scoring.py:196-214 | each comment is present exactly when its threshold is met |
| Scoring.CommentsForEmpty | app/scoring.py:196-214 | the list is empty exactly when no threshold is met |
| Scoring.CommentsForShortFive | app/scoring.py:203-204 | some comment is a short five-star comment exactly when the short five-star ratio is at least 0.4 |
| Scoring.BuildComments | app/scoring.py:196-214 | the appending code computes `CommentsFor` |
| Analysis.TabelogMissing | app/scoring.py:38 | defines `tabelog_missing`: neither a competing rating nor a competing review count |
| Analysis.CompetitorRating | app/scoring.py:37 | defines the competing rating passed to `_calc_rating_diff` |
| Analysis.SignalsOf | app/scoring.py:32-52 | every ratio signal lies in [0, 1], `total_reviews` is the review count, the rating difference is absent exactly when a rating is and otherwise is their difference, `tabelog_missing` holds exactly when rating and count are both absent, and the similarity is in [0, 1] |
| Analysis.Analyze | app/scoring.py:31-74 | both scores lie in 0..100, the label is high or low exactly by the thresholds, every listed keyword count is positive, and the comments are at most five in the fixed order |
| Analysis.AnalyzePlace | app/scoring.py:31-74 | running the extractors in turn computes `Analyze` |
| Analysis.ResponseKeywords | app/scoring.py:72 | `fraud_keywords` lists each fraud keyword that some review mentions, exactly once, with the number of reviews mentioning it, and nothing else |
| Analysis.ResponseComments | app/scoring.py:65 | each comment is present exactly when the signal reported beside it crosses the comment's threshold |
| Analysis.ResponseScores | app/scoring.py:54-63 | the response's scores are the scores of the signals it reports |
| Analysis.NoReviewsNoCompetitor | app/scoring.py:31-74 | no reviews and no Tabelog data give every ratio 0, sakura 5, fraud 0, label low, no keywords and only the "Tabelog sparse" comment |
| Analysis.QuietPlaceIsLowRisk | tests/test_scoring.py:17-35 | under ten reviews with no short five-star review and no keyword, a gap of at most 0.5 and the same name give sakura ≤ 32, fraud 0 and label low |
| Analysis.ShortFiveStarBurstRatios | tests/test_scoring.py:38-51 | twenty or more short five-star reviews within one week give short five-star ratio 1, low-star ratio 0 and burst ratio 1 |
| Analysis.ShortFiveStarBurstIsHighRisk | tests/test_scoring.py:38-51 | twenty or more short five-star reviews within one week and a gap of at least 4/3 give sakura ≥ 95 and label high |
| Analysis.LowStarFraudIsHighRisk | tests/test_scoring.py:54-68 | ten or more one- or two-star reviews that all mention a fraud keyword give fraud 100 and label high |
| Analysis.RatingGapIsExplained | app/scoring.py:208-209 | ratings 4.9 against 3.0 report a gap of 1.9 and carry the rating-gap comment |

## Left out

- Fetching the place and its reviews (`app/google_client.py`), the HTTP endpoint (`app/api.py`) and the extraction of the place id from a URL are I/O and are not part of this model. `PlaceData` and `AnalyzeRequest` are its inputs.
- pydantic validation in `app/models.py` appears only as the field bounds it enforces: star ratings 1..5, a Tabelog rating in [0, 5] and a non-negative review count. These are subset types of the model's records.
- NFKC normalisation, `str.lower` and `difflib.SequenceMatcher.ratio` are library algorithms. They are parameters of type `TextLibrary`. The only fact the model uses about them is that the ratio lies in [0, 1]. So `QuietPlaceIsLowRisk` takes as a hypothesis that the ratio of a name with itself is 1.
- Floating point: ratios, ratings and scores are exact reals. A float can fall just short of the exact value. For example, Python's `57 / 100 * 100` is 56.99999999999999, so the float result can differ by one where `round` or `int()` meets such a value.
- Scoring.CommentsFor: the percentage in the short five-star comment is `int()` of the exact real. With floats it can be one lower, as the example above shows.
- Scoring.RoundHalfEven: rounds the exact real. Python rounds the binary float nearest to it, so a tie that the decimal computation would reach can be missed.
- Timestamps are integers. So the `isinstance(created_at, datetime)` filter keeps every review, and the `if not times` branch after it is unreachable (there are at least five reviews by then). Comparing naive with timezone-aware datetimes, which raises an error in Python, has no counterpart.
- Each extractor's `total` parameter is written as the length of the review list, which is what `analyze_place` always passes.
- The Python `Counter` is a local value rebuilt by reassignment. The model does not represent its in-place update or aliasing.
- `text or ""` in `_normalize_text`: a review's text is never `None` once validated, so the model's text is always a string.
- The response carries `RiskLabel` and `Comment` values rather than the strings `risk_label` and `comments_ja` (app/models.py:49, 52). The strings are `Name()` and `Text()` of those values. No lemma states that rendering keeps the comments distinct.
- `place_id`, `user_ratings_total` and `google_maps_url` do not take part in scoring. They are carried in the records but never read.
