/**
 * What a listing card shows: the price in millions or lakhs, the mileage in km or
 * thousands of km, the reliability tier, the price badge and the fuel figure.
 */
module VehicleCard {
  import opened Wrappers
  import opened Text
  import opened Schema
  import opened Store

  // ---- reliability tiers ----

  datatype Tier = High | Medium | Low

  /** The three-way split of a reliability score: 8 and up, 6 and 7, below 6. */
  function TierOf(score: int): (t: Tier)
    ensures t == High <==> score >= 8
    ensures t == Medium <==> 6 <= score < 8
    ensures t == Low <==> score < 6
  {
    if score >= 8 then High else if score >= 6 then Medium else Low
  }

  function TierRank(t: Tier): nat {
    match t
    case Low => 0
    case Medium => 1
    case High => 2
  }

  /** A higher score never lands in a lower tier. */
  lemma TierMonotone(a: int, b: int)
    requires a <= b
    ensures TierRank(TierOf(a)) <= TierRank(TierOf(b))
  {
  }

  /** `getReliabilityColor`: the style class of a tier. */
  function ReliabilityColor(score: int): string {
    match TierOf(score)
    case High => "reliability-high"
    case Medium => "reliability-medium"
    case Low => "reliability-low"
  }

  /** Each tier has its own class, so the class tells the tier. */
  lemma ReliabilityColorNamesTier(a: int, b: int)
    ensures ReliabilityColor(a) == ReliabilityColor(b) <==> TierOf(a) == TierOf(b)
  {
    assert "reliability-high"[12] != "reliability-medium"[12];
    assert "reliability-high"[12] != "reliability-low"[12];
    assert "reliability-medium"[12] != "reliability-low"[12];
  }

  /** `reliabilityScore = 7`: the default applies only when no score is passed at all. */
  function ScoreProp(given: Option<int>): (s: int)
    ensures given.Some? ==> s == given.value
    ensures given.None? ==> s == DefaultReliabilityScore
  {
    given.GetOr(DefaultReliabilityScore)
  }

  // ---- price and mileage ----

  /** `formatPrice`: "Rs. x.xxM" from a million up, otherwise "Rs. x.x Lakhs". */
  function FormatPrice(price: int): string {
    if price >= 1000000 then "Rs. " + ToFixed(price, 10000, 2) + "M"
    else "Rs. " + ToFixed(price, 10000, 1) + " Lakhs"
  }

  /** The millions form is chosen exactly from a million up: the text ends in 'M' just then. */
  lemma PriceFormChoice(price: int)
    ensures var s := FormatPrice(price); |s| >= 1 && (s[|s| - 1] == 'M' <==> price >= 1000000)
  {
  }

  /**
   * From a million up the figure is the price in millions with two decimals, read as
   * hundredths: the price divided by 10,000 and rounded to the nearest step.
   */
  lemma MillionsReadBack(price: int)
    requires price >= 1000000
    ensures exists whole: string, frac: string ::
      && FormatPrice(price) == "Rs. " + (whole + "." + frac) + "M"
      && |frac| == 2 && |whole| >= 1
      && (forall i :: 0 <= i < |whole| ==> IsDigit(whole[i]))
      && (forall i :: 0 <= i < |frac| ==> IsDigit(frac[i]))
      && DigitsValue(whole) * 100 + DigitsValue(frac) == RoundDiv(price, 10000)
  {
    var q := RoundDiv(price, 10000);
    assert Pow10(2) == 100;
    PartsRead(q, 100, 2);
    var whole, frac := NatToString(Quot(q, 100)), PadDigits(Rem(q, 100), 2);
    assert FormatPrice(price) == "Rs. " + (whole + "." + frac) + "M";
  }

  /**
   * Below a million (and from 0) the figure is the price in lakhs with one decimal,
   * read as tenths: the price divided by 10,000 and rounded to the nearest step.
   */
  lemma LakhsReadBack(price: int)
    requires 0 <= price < 1000000
    ensures exists whole: string, frac: string ::
      && FormatPrice(price) == "Rs. " + (whole + "." + frac) + " Lakhs"
      && |frac| == 1 && |whole| >= 1
      && (forall i :: 0 <= i < |whole| ==> IsDigit(whole[i]))
      && (forall i :: 0 <= i < |frac| ==> IsDigit(frac[i]))
      && DigitsValue(whole) * 10 + DigitsValue(frac) == RoundDiv(price, 10000)
  {
    var q := RoundDiv(price, 10000);
    assert Pow10(1) == 10;
    PartsRead(q, 10, 1);
    var whole, frac := NatToString(Quot(q, 10)), PadDigits(Rem(q, 10), 1);
    assert FormatPrice(price) == "Rs. " + (whole + "." + frac) + " Lakhs";
  }

  /** `formatMileage`: exact kilometres below 1000, otherwise thousands rounded to the nearest. */
  function FormatMileage(mileage: int): string {
    if mileage >= 1000 then ToFixed(mileage, 1000, 0) + "k km"
    else IntToString(mileage) + " km"
  }

  /** From 1000 up the mileage shows as the nearest whole thousand, halves going up. */
  lemma MileageThousands(mileage: int)
    requires mileage >= 1000
    ensures exists k: nat ::
      && FormatMileage(mileage) == NatToString(k) + "k km"
      && k * 1000 <= mileage + 500 < k * 1000 + 1000
  {
    var k := RoundDiv(mileage, 1000);
    RoundDivNearest(mileage, 1000);
    assert ToFixed(mileage, 1000, 0) == NatToString(k);
  }

  /** Below 1000 the mileage shows exactly. */
  lemma MileageExact(mileage: int)
    requires 0 <= mileage < 1000
    ensures FormatMileage(mileage) == NatToString(mileage) + " km"
  {
  }

  /** 48,500 km is a tie between 48 and 49 thousand and shows as "49k km". */
  lemma MileageExample()
    ensures FormatMileage(48500) == "49k km"
  {
    assert RoundDiv(48500, 1000) == 49;
    assert NatToString(4) == "4";
    assert NatToString(49) == "49";
  }

  /** Mileage is shown whenever it is present, so 0 shows as "0 km". */
  function MileageText(mileage: Option<int>): (r: Option<string>)
    ensures r.Some? <==> mileage.Some?
    ensures mileage.Some? ==> r.value == FormatMileage(mileage.value)
  {
    if mileage.Some? then Some(FormatMileage(mileage.value)) else None
  }

  lemma ZeroMileageShown()
    ensures MileageText(Some(0)) == Some("0 km")
  {
    assert NatToString(0) == [DigitChar(0)] == "0";
    assert IntToString(0) == "0";
    assert FormatMileage(0) == "0" + " km" == "0 km";
  }

  // ---- picture ----

  const ImageHost := "https://images.unsplash.com/photo-"
  const ImageSize := "?w=400&h=250&fit=crop"

  /** A picture address: the host, the photo's id and the crop. */
  function Image(photo: string): string {
    ImageHost + photo + ImageSize
  }

  const VitzImage := Image("1549317661-bd32c8ce0db2")
  const WagonRImage := Image("1552519507-da3b142c6e3d")
  const VezelImage := Image("1606664515524-ed2f786a0bd6")
  const AxioImage := Image("1621007947382-bb3c3994e3fb")
  const FallbackImage := Image("1494976388531-d1058494cdd8")

  /** Two addresses whose photo ids differ at some place differ. */
  lemma ImagesDiffer(x: string, y: string, k: nat)
    requires k < |x| && k < |y| && x[k] != y[k]
    ensures Image(x) != Image(y)
  {
    assert Image(x)[|ImageHost| + k] == x[k];
    assert Image(y)[|ImageHost| + k] == y[k];
  }

  /** The four models that have a picture of their own. */
  predicate HasOwnImage(baseModel: string) {
    baseModel == "Toyota Vitz" || baseModel == "Suzuki Wagon R" || baseModel == "Honda Vezel" || baseModel == "Toyota Axio"
  }

  /** `getCarImage`: a fixed placeholder picture per known model, the generic one for every other name. */
  function CarImage(baseModel: string): (r: string)
    ensures r == FallbackImage <==> !HasOwnImage(baseModel)
  {
    ImagesDiffer("1549317661-bd32c8ce0db2", "1494976388531-d1058494cdd8", 1);
    ImagesDiffer("1552519507-da3b142c6e3d", "1494976388531-d1058494cdd8", 1);
    ImagesDiffer("1606664515524-ed2f786a0bd6", "1494976388531-d1058494cdd8", 1);
    ImagesDiffer("1621007947382-bb3c3994e3fb", "1494976388531-d1058494cdd8", 1);
    if baseModel == "Toyota Vitz" then VitzImage
    else if baseModel == "Suzuki Wagon R" then WagonRImage
    else if baseModel == "Honda Vezel" then VezelImage
    else if baseModel == "Toyota Axio" then AxioImage
    else FallbackImage
  }

  /** No two of the known models share a picture. */
  lemma OwnImagesDistinct(a: string, b: string)
    requires HasOwnImage(a) && HasOwnImage(b) && a != b
    ensures CarImage(a) != CarImage(b)
  {
    ImagesDiffer("1549317661-bd32c8ce0db2", "1552519507-da3b142c6e3d", 2);
    ImagesDiffer("1549317661-bd32c8ce0db2", "1606664515524-ed2f786a0bd6", 1);
    ImagesDiffer("1549317661-bd32c8ce0db2", "1621007947382-bb3c3994e3fb", 1);
    ImagesDiffer("1552519507-da3b142c6e3d", "1606664515524-ed2f786a0bd6", 1);
    ImagesDiffer("1552519507-da3b142c6e3d", "1621007947382-bb3c3994e3fb", 1);
    ImagesDiffer("1606664515524-ed2f786a0bd6", "1621007947382-bb3c3994e3fb", 2);
  }

  // ---- badges and figures ----

  datatype PriceLabel = PriceLabel(english: string, sinhala: string, style: string)

  /** `priceLabels[key]`: the table has entries for the three ratings only. */
  function PriceLabelFor(key: string): Option<PriceLabel> {
    if key == "good_deal" then Some(PriceLabel("Good Deal", "හොඳ ගනුදෙනුවක්", "badge-good-deal"))
    else if key == "fair_price" then Some(PriceLabel("Fair Price", "සාධාරණ මිල", "badge-fair-price"))
    else if key == "overpriced" then Some(PriceLabel("Overpriced", "අධික මිල", "badge-overpriced"))
    else None
  }

  /** The rating a card receives from its listing, as the text the table is keyed by. */
  function RatingText(e: Option<PriceEvaluation>): Option<string> {
    if e.Some? then Some(EvaluationName(e.value)) else None
  }

  /** `priceEvaluation ? priceLabels[priceEvaluation] : null`. */
  function PriceBadge(priceEvaluation: Option<string>): (r: Option<PriceLabel>)
    ensures priceEvaluation.None? ==> r.None?
  {
    if SetText(priceEvaluation) then PriceLabelFor(priceEvaluation.value) else None
  }

  /** A listing gets a badge exactly when it is rated good deal, fair price or overpriced. */
  lemma BadgeOnlyForRatings(e: Option<PriceEvaluation>)
    ensures PriceBadge(RatingText(e)).Some? <==> e.Some? && e.value != Unknown
  {
    if e == Some(Unknown) {
      assert "unknown"[0] != "good_deal"[0] && "unknown"[0] != "fair_price"[0] && "unknown"[0] != "overpriced"[0];
    }
  }

  /** The three badges are told apart by their style. */
  lemma BadgesDistinct(a: PriceEvaluation, b: PriceEvaluation)
    requires a != Unknown && b != Unknown && a != b
    ensures PriceBadge(RatingText(Some(a))).value.style != PriceBadge(RatingText(Some(b))).value.style
  {
    BadgeOnlyForRatings(Some(a));
    BadgeOnlyForRatings(Some(b));
    assert "badge-good-deal"[6] != "badge-fair-price"[6];
    assert "badge-good-deal"[6] != "badge-overpriced"[6];
    assert "badge-fair-price"[6] != "badge-overpriced"[6];
  }

  /** `fuelEfficiency && (city || hybrid || "N/A") + " kmpl"`. */
  function FuelText(fuel: Option<FuelEfficiency>): (r: Option<string>)
    ensures r.Some? <==> fuel.Some?
  {
    if fuel.None? then None
    else
      var f := fuel.value;
      var figure := if SetText(f.cityKmpl) then f.cityKmpl.value
        else if SetText(f.hybridKmpl) then f.hybridKmpl.value
        else "N/A";
      Some(figure + " kmpl")
  }

  /** The city figure wins, then the hybrid one; the highway figure is never shown. */
  lemma FuelPreference(f: FuelEfficiency)
    ensures SetText(f.cityKmpl) ==> FuelText(Some(f)) == Some(f.cityKmpl.value + " kmpl")
    ensures !SetText(f.cityKmpl) && SetText(f.hybridKmpl) ==> FuelText(Some(f)) == Some(f.hybridKmpl.value + " kmpl")
    ensures !SetText(f.cityKmpl) && !SetText(f.hybridKmpl) ==> FuelText(Some(f)) == Some("N/A kmpl")
    ensures FuelText(Some(f)) == FuelText(Some(f.(highwayKmpl := None)))
  {
    assert "N/A" + " kmpl" == "N/A kmpl";
  }

  /** The location is shown only when it is a non-empty text. */
  function LocationText(location: Option<string>): (r: Option<string>)
    ensures r.Some? <==> SetText(location)
    ensures r.Some? ==> r == location
  {
    if SetText(location) then location else None
  }
}
