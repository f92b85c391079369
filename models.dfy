/**
 * The records the scoring engine consumes and produces (app/models.py).
 * Field bounds that pydantic enforces when the records are built are
 * subset types here, so the engine never sees a value outside them.
 */
module Models {

  datatype Option<T> = None | Some(value: T)

  /** A review's star rating: pydantic accepts 1..5 only. */
  type Stars = x: int | 1 <= x <= 5 witness 1

  /** A competing-source (Tabelog) rating: pydantic accepts 0..5 only. */
  type TabelogRating = x: real | 0.0 <= x <= 5.0

  /** One review. `createdAt` is an instant in microseconds since the epoch. */
  datatype Review = Review(rating: Stars, text: string, createdAt: int)

  /** The business's current state as fetched from Google. */
  datatype PlaceData = PlaceData(
    placeId: string,
    name: string,
    rating: Option<real>,
    userRatingsTotal: Option<int>,
    reviews: seq<Review>
  )

  /** What the user supplied about the competing source. */
  datatype AnalyzeRequest = AnalyzeRequest(
    googleMapsUrl: string,
    tabelogRating: Option<TabelogRating>,
    tabelogReviewCount: Option<nat>,
    tabelogName: Option<string>
  )

  /** How many reviews mention one fraud keyword. */
  datatype KeywordCount = KeywordCount(keyword: string, count: int)

  /** The seven signals, plus the review count they were computed over. */
  datatype Signals = Signals(
    totalReviews: nat,
    short5Ratio: real,
    burst7DayRatio: real,
    ratingDiffGoogleMinusTabelog: Option<real>,
    tabelogMissing: bool,
    nameSimilarityGoogleVsTabelog: Option<real>,
    lowStarRatio: real,
    fraudKeywordRatio: real
  )

  /** The three-level risk label. */
  datatype RiskLabel = Low | Medium | High {
    /** The string the response carries. */
    function Name(): string {
      match this
      case Low => "low"
      case Medium => "medium"
      case High => "high"
    }

    /** Position in the order low < medium < high. */
    function Level(): nat {
      match this
      case Low => 0
      case Medium => 1
      case High => 2
    }
  }

  /** One explanatory comment; `Text()` is the Japanese sentence the response carries. */
  datatype Comment =
    | ShortFiveStar(percent: int)
    | ReviewBurst
    | RatingGap
    | TabelogSparse
    | ScamKeywords
  {
    /** Position in the fixed order in which comments are produced. */
    function Rank(): nat {
      match this
      case ShortFiveStar(_) => 0
      case ReviewBurst => 1
      case RatingGap => 2
      case TabelogSparse => 3
      case ScamKeywords => 4
    }

    function Text(): string {
      match this
      case ShortFiveStar(p) => "短文または無言の★5口コミが全体の" + IntToDecimal(p) + "%を占めています。"
      case ReviewBurst => "短期間に口コミが集中して投稿されており、不自然な増え方です。"
      case RatingGap => "Googleと食べログの評価差が大きく、Google側の評価が高めに出ています。"
      case TabelogSparse => "食べログに情報がほとんどなく、Googleのみ口コミが集まっています。"
      case ScamKeywords => "『詐欺』『ぼったくり』などのネガティブなキーワードを含む口コミが複数見つかりました。"
    }
  }

  /** The full analysis result. */
  datatype Response = Response(
    sakuraScore: int,
    fraudScore: int,
    riskLabel: RiskLabel,
    signals: Signals,
    fraudKeywords: seq<KeywordCount>,
    comments: seq<Comment>
  )

  /** Python's `str(n)` for an integer. */
  function IntToDecimal(n: int): string {
    if n < 0 then "-" + NatToDecimal(-n) else NatToDecimal(n)
  }

  function NatToDecimal(n: nat): (r: string)
    ensures r != []
    ensures forall i :: 0 <= i < |r| ==> '0' <= r[i] <= '9'
  {
    var d := ['0' + (n % 10) as char];
    if n < 10 then d else NatToDecimal(n / 10) + d
  }

  function DecimalValue(s: string): nat
    requires forall i :: 0 <= i < |s| ==> '0' <= s[i] <= '9'
  {
    if s == [] then 0 else 10 * DecimalValue(s[..|s| - 1]) + (s[|s| - 1] - '0') as nat
  }

  /** The decimal rendering reads back as the number it renders. */
  lemma {:induction false} NatToDecimalRoundTrip(n: nat)
    ensures DecimalValue(NatToDecimal(n)) == n
  {
    var r := NatToDecimal(n);
    if n >= 10 {
      NatToDecimalRoundTrip(n / 10);
      assert r[..|r| - 1] == NatToDecimal(n / 10);
    }
  }
}
