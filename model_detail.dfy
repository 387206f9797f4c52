/**
 * The model page: the reliability colour, word and ten-segment bar, the colour of
 * each known problem's severity, the market-price table for the model, and the
 * "years to avoid" block.
 */
module ModelDetail {
  import opened Wrappers
  import opened Text
  import opened Schema
  import opened Seqs
  import VehicleCard

  // ---- reliability ----

  /** `getReliabilityColor` of this page: the text colour of the score's tier. */
  function ReliabilityColor(score: int): string {
    match VehicleCard.TierOf(score)
    case High => "text-green-600"
    case Medium => "text-yellow-600"
    case Low => "text-red-600"
  }

  /** The word next to the score in the summary card. */
  function ReliabilityWord(score: int): string {
    match VehicleCard.TierOf(score)
    case High => "ඉහළ"
    case Medium => "මධ්‍යම"
    case Low => "අඩු"
  }

  /**
   * The colour, the word and the card's class all follow the same three tiers: two
   * scores get the same colour exactly when they get the same word, and exactly
   * when a listing card would give them the same class.
   */
  lemma TiersAgree(a: int, b: int)
    ensures ReliabilityColor(a) == ReliabilityColor(b) <==> VehicleCard.TierOf(a) == VehicleCard.TierOf(b)
    ensures ReliabilityWord(a) == ReliabilityWord(b) <==> VehicleCard.TierOf(a) == VehicleCard.TierOf(b)
    ensures ReliabilityColor(a) == ReliabilityColor(b) <==> VehicleCard.ReliabilityColor(a) == VehicleCard.ReliabilityColor(b)
  {
    assert "text-green-600"[5] != "text-yellow-600"[5];
    assert "text-green-600"[5] != "text-red-600"[5];
    assert "text-yellow-600"[5] != "text-red-600"[5];
    assert "ඉහළ"[0] != "මධ්‍යම"[0] && "ඉහළ"[0] != "අඩු"[0] && "මධ්‍යම"[0] != "අඩු"[0];
    VehicleCard.ReliabilityColorNamesTier(a, b);
  }

  /** The fill of a lit bar segment: the tier's colour. */
  function BarColor(score: int): string {
    match VehicleCard.TierOf(score)
    case High => "bg-green-500"
    case Medium => "bg-yellow-500"
    case Low => "bg-red-500"
  }

  const EmptySegment := "bg-gray-200"

  /** Segment `i` before the reversal: lit exactly when `i < score`. */
  function Segment(score: int, i: int): string {
    if i < score then BarColor(score) else EmptySegment
  }

  /**
   * The ten segments top to bottom, after `.reverse()`: the bottom `score` segments
   * are lit in the tier's colour, the ones above are empty; a score of 10 or more
   * lights all of them and one of 0 or less none.
   */
  function ReliabilityBar(score: int): (r: seq<string>)
    ensures |r| == 10
    ensures forall j :: 0 <= j < 10 ==> (r[j] != EmptySegment <==> j >= 10 - score)
    ensures forall j :: 0 <= j < 10 && j >= 10 - score ==> r[j] == BarColor(score)
  {
    assert BarColor(score) != EmptySegment by {
      assert "bg-green-500"[5] != EmptySegment[5];
      assert "bg-yellow-500"[3] != EmptySegment[3];
      assert "bg-red-500"[3] != EmptySegment[3];
    }
    Reverse(seq(10, i => Segment(score, i)))
  }

  // ---- severity ----

  datatype Severity = HighSeverity | MediumSeverity | LowSeverity | OtherSeverity

  /**
   * `switch (severity.toLowerCase())`. Lower-casing only ASCII letters decides the
   * three cases exactly as JavaScript's full lower-casing does: no other character
   * lower-cases to a lone letter of "high", "medium" or "low".
   */
  function SeverityOf(severity: string): (s: Severity)
    ensures s == HighSeverity <==> LowerAsciiString(severity) == "high"
    ensures s == MediumSeverity <==> LowerAsciiString(severity) == "medium"
    ensures s == LowSeverity <==> LowerAsciiString(severity) == "low"
  {
    var w := LowerAsciiString(severity);
    if w == "high" then HighSeverity
    else if w == "medium" then MediumSeverity
    else if w == "low" then LowSeverity
    else OtherSeverity
  }

  /** `getSeverityColor`: red, yellow and green badges, grey for anything else. */
  function SeverityColor(severity: string): string {
    match SeverityOf(severity)
    case HighSeverity => "bg-red-100 text-red-800 dark:bg-red-900 dark:text-red-200"
    case MediumSeverity => "bg-yellow-100 text-yellow-800 dark:bg-yellow-900 dark:text-yellow-200"
    case LowSeverity => "bg-green-100 text-green-800 dark:bg-green-900 dark:text-green-200"
    case OtherSeverity => "bg-gray-100 text-gray-800"
  }

  /** Lower-casing twice is lower-casing once. */
  lemma LowerIdempotent(s: string)
    ensures LowerAsciiString(LowerAsciiString(s)) == LowerAsciiString(s)
  {
  }

  /** The case of the stored severity does not matter. */
  lemma SeverityIgnoresCase(severity: string)
    ensures SeverityOf(LowerAsciiString(severity)) == SeverityOf(severity)
    ensures SeverityColor(LowerAsciiString(severity)) == SeverityColor(severity)
  {
    LowerIdempotent(severity);
  }

  /** "High" is the high severity. */
  lemma SeverityExample()
    ensures SeverityOf("High") == HighSeverity
  {
    assert LowerAsciiString("High") == "high";
  }

  // ---- market prices ----

  /** `formatPrice` of this page: "Rs. x.xxM" from a million up, otherwise "Rs. x.xL". */
  function FormatPrice(price: int): string {
    if price >= 1000000 then "Rs. " + ToFixed(price, 10000, 2) + "M"
    else "Rs. " + ToFixed(price, 10000, 1) + "L"
  }

  /**
   * The same figure as on a listing card: identical from a million up, and below it
   * the card spells the suffix out as " Lakhs" where this page writes "L".
   */
  lemma SameFigureAsCard(price: int)
    ensures price >= 1000000 ==> FormatPrice(price) == VehicleCard.FormatPrice(price)
    ensures price < 1000000 ==>
      var s := FormatPrice(price);
      s[|s| - 1] == 'L' && VehicleCard.FormatPrice(price) == s[..|s| - 1] + " Lakhs"
  {
    if price < 1000000 {
      var s := FormatPrice(price);
      assert s[..|s| - 1] == "Rs. " + ToFixed(price, 10000, 1);
    }
  }

  /** `minPrice || 0`: a missing bound (or a 0 one) shows as zero. */
  function Bound(b: Option<int>): (r: int)
    ensures b.None? ==> r == 0
    ensures b.Some? ==> r == b.value
  {
    b.GetOr(0)
  }

  /** The range column: "min - max". */
  function PriceRange(p: MarketPrice): string {
    FormatPrice(Bound(p.minPrice)) + " - " + FormatPrice(Bound(p.maxPrice))
  }

  /** A missing bound reads as a bound of 0. */
  lemma MissingBoundIsZero(p: MarketPrice)
    ensures p.minPrice.None? ==> PriceRange(p) == PriceRange(p.(minPrice := Some(0)))
    ensures p.maxPrice.None? ==> PriceRange(p) == PriceRange(p.(maxPrice := Some(0)))
  {
  }

  function NewestYearFirst(p: MarketPrice): int {
    -p.year
  }

  /**
   * The price rows of the page: `marketPrices?.filter(p => p.baseModel === name) || []`,
   * then sorted by year, newest first (the sort is stable).
   */
  function ModelPrices(prices: Option<seq<MarketPrice>>, baseModel: string): (r: seq<MarketPrice>)
    ensures prices.None? ==> r == []
    ensures forall i :: 0 <= i < |r| ==> r[i].baseModel == baseModel && r[i] in prices.value
    ensures prices.Some? ==> forall i :: 0 <= i < |prices.value| && prices.value[i].baseModel == baseModel ==> prices.value[i] in r
    ensures SortedBy(r, NewestYearFirst)
  {
    if prices.None? then []
    else
      var mine := Filter(prices.value, (p: MarketPrice) => p.baseModel == baseModel);
      var r := SortBy(mine, NewestYearFirst);
      assert forall i :: 0 <= i < |r| ==> r[i] in mine by {
        forall i | 0 <= i < |r| ensures r[i] in mine {
          SortByMembers(mine, NewestYearFirst, r[i]);
        }
      }
      assert forall i :: 0 <= i < |mine| ==> mine[i] in r by {
        forall i | 0 <= i < |mine| ensures mine[i] in r {
          SortByMembers(mine, NewestYearFirst, mine[i]);
        }
      }
      r
  }

  /** The rows are exactly the filtered ones, each as often as it was stored: a permutation. */
  lemma ModelPricesPermutation(prices: seq<MarketPrice>, baseModel: string)
    ensures multiset(ModelPrices(Some(prices), baseModel)) == multiset(Filter(prices, (p: MarketPrice) => p.baseModel == baseModel))
  {
  }

  // ---- years to avoid ----

  /** The list of years to avoid is drawn when there is at least one. */
  function AvoidListShown(yearsToAvoid: Option<seq<string>>): bool {
    yearsToAvoid.Some? && |yearsToAvoid.value| > 0
  }

  /** The "no years to avoid" note: shown exactly when the list is not. */
  function NoAvoidNoteShown(yearsToAvoid: Option<seq<string>>): (b: bool)
    ensures b <==> !AvoidListShown(yearsToAvoid)
  {
    yearsToAvoid.None? || |yearsToAvoid.value| == 0
  }
}
