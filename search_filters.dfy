/**
 * The search form: a record of optional filters edited key by key, applied or
 * cleared as a whole, and turned into a listing search by the vehicles page.
 */
module SearchFilterForm {
  import opened Wrappers
  import opened Text
  import opened Schema
  import opened Store

  /** The filter record: every key may be absent (`undefined`). */
  datatype FilterState = FilterState(
    baseModel: Option<string>,
    minYear: Option<int>,
    maxYear: Option<int>,
    minPrice: Option<int>,
    maxPrice: Option<int>,
    location: Option<string>,
    priceEvaluation: Option<PriceEvaluation>)

  /** The empty record `{}`. */
  const NoFilters := FilterState(None, None, None, None, None, None, None)

  datatype FilterKey = BaseModelKey | MinYearKey | MaxYearKey | MinPriceKey | MaxPriceKey | LocationKey | EvaluationKey

  /** The value held under one key; `Unset` is `undefined`. */
  datatype FilterValue = Unset | TextValue(text: string) | NumberValue(number: int) | RatingValue(rating: PriceEvaluation)

  function OfText(o: Option<string>): FilterValue {
    if o.Some? then TextValue(o.value) else Unset
  }

  function OfNumber(o: Option<int>): FilterValue {
    if o.Some? then NumberValue(o.value) else Unset
  }

  function OfRating(o: Option<PriceEvaluation>): FilterValue {
    if o.Some? then RatingValue(o.value) else Unset
  }

  /** `filters[key]`. */
  function Get(f: FilterState, k: FilterKey): FilterValue {
    match k
    case BaseModelKey => OfText(f.baseModel)
    case MinYearKey => OfNumber(f.minYear)
    case MaxYearKey => OfNumber(f.maxYear)
    case MinPriceKey => OfNumber(f.minPrice)
    case MaxPriceKey => OfNumber(f.maxPrice)
    case LocationKey => OfText(f.location)
    case EvaluationKey => OfRating(f.priceEvaluation)
  }

  /**
   * What a control hands to `updateFilter`: the model and location selects give
   * text, the year selects and price boxes give `parseInt` of their text or nothing
   * (`None` also stands for `NaN`), the rating select gives a rating or nothing.
   */
  datatype Edit =
    | SetBaseModel(text: string)
    | SetMinYear(number: Option<int>)
    | SetMaxYear(number: Option<int>)
    | SetMinPrice(number: Option<int>)
    | SetMaxPrice(number: Option<int>)
    | SetLocation(text: string)
    | SetEvaluation(rating: Option<PriceEvaluation>)

  function KeyOf(e: Edit): FilterKey {
    match e
    case SetBaseModel(_) => BaseModelKey
    case SetMinYear(_) => MinYearKey
    case SetMaxYear(_) => MaxYearKey
    case SetMinPrice(_) => MinPriceKey
    case SetMaxPrice(_) => MaxPriceKey
    case SetLocation(_) => LocationKey
    case SetEvaluation(_) => EvaluationKey
  }

  /** JavaScript falsiness of the value an edit carries: "", 0, `NaN` or nothing. */
  predicate Falsy(e: Edit) {
    match e
    case SetBaseModel(t) => t == ""
    case SetLocation(t) => t == ""
    case SetEvaluation(r) => r.None?
    case SetMinYear(n) => n.None? || n.value == 0
    case SetMaxYear(n) => n.None? || n.value == 0
    case SetMinPrice(n) => n.None? || n.value == 0
    case SetMaxPrice(n) => n.None? || n.value == 0
  }

  /** The value an edit carries, as it would be stored without the `|| undefined`. */
  function Given(e: Edit): FilterValue {
    match e
    case SetBaseModel(t) => TextValue(t)
    case SetLocation(t) => TextValue(t)
    case SetEvaluation(r) => OfRating(r)
    case SetMinYear(n) => OfNumber(n)
    case SetMaxYear(n) => OfNumber(n)
    case SetMinPrice(n) => OfNumber(n)
    case SetMaxPrice(n) => OfNumber(n)
  }

  function TextOrUnset(t: string): Option<string> {
    if t == "" then None else Some(t)
  }

  function NumberOrUnset(n: Option<int>): Option<int> {
    if n.Some? && n.value != 0 then n else None
  }

  /**
   * `{ ...filters, [key]: value || undefined }`: the named key takes the edit's value,
   * or is cleared when that value is falsy; every other key keeps its value.
   */
  function Updated(f: FilterState, e: Edit): (r: FilterState)
    ensures forall k :: k != KeyOf(e) ==> Get(r, k) == Get(f, k)
    ensures Falsy(e) ==> Get(r, KeyOf(e)) == Unset
    ensures !Falsy(e) ==> Get(r, KeyOf(e)) == Given(e)
  {
    match e
    case SetBaseModel(t) => f.(baseModel := TextOrUnset(t))
    case SetMinYear(n) => f.(minYear := NumberOrUnset(n))
    case SetMaxYear(n) => f.(maxYear := NumberOrUnset(n))
    case SetMinPrice(n) => f.(minPrice := NumberOrUnset(n))
    case SetMaxPrice(n) => f.(maxPrice := NumberOrUnset(n))
    case SetLocation(t) => f.(location := TextOrUnset(t))
    case SetEvaluation(r) => f.(priceEvaluation := r)
  }

  /** `Object.values(filters).some(v => v !== undefined)`. */
  function HasActiveFilters(f: FilterState): (b: bool)
    ensures b <==> exists k :: Get(f, k) != Unset
  {
    assert f.baseModel.Some? ==> Get(f, BaseModelKey) != Unset;
    assert f.minYear.Some? ==> Get(f, MinYearKey) != Unset;
    assert f.maxYear.Some? ==> Get(f, MaxYearKey) != Unset;
    assert f.minPrice.Some? ==> Get(f, MinPriceKey) != Unset;
    assert f.maxPrice.Some? ==> Get(f, MaxPriceKey) != Unset;
    assert f.location.Some? ==> Get(f, LocationKey) != Unset;
    assert f.priceEvaluation.Some? ==> Get(f, EvaluationKey) != Unset;
    || f.baseModel.Some? || f.minYear.Some? || f.maxYear.Some? || f.minPrice.Some?
    || f.maxPrice.Some? || f.location.Some? || f.priceEvaluation.Some?
  }

  /** The rating select offers the three ratings only, never "unknown". */
  predicate Offered(e: Edit) {
    e.SetEvaluation? && e.rating.Some? ==> e.rating.value != Unknown
  }

  /**
   * Every key that holds a value holds a truthy one, and the rating is one the
   * select offers: what edits through the form leave behind.
   */
  predicate Normalized(f: FilterState) {
    && (f.baseModel.Some? ==> f.baseModel.value != "")
    && (f.minYear.Some? ==> f.minYear.value != 0)
    && (f.maxYear.Some? ==> f.maxYear.value != 0)
    && (f.minPrice.Some? ==> f.minPrice.value != 0)
    && (f.maxPrice.Some? ==> f.maxPrice.value != 0)
    && (f.location.Some? ==> f.location.value != "")
    && (f.priceEvaluation.Some? ==> f.priceEvaluation.value != Unknown)
  }

  /** An edit never stores a falsy value, so normalized records stay normalized. */
  lemma UpdatedKeepsNormalized(f: FilterState, e: Edit)
    requires Normalized(f) && Offered(e)
    ensures Normalized(Updated(f, e))
  {
  }

  /** The search the vehicles page sends for a filter record: `{ ...filters, limit, offset }`. */
  function ToQuery(f: FilterState, limit: Option<nat>, offset: Option<nat>): (q: ListingQuery)
    ensures q.source.None? && q.limit == limit && q.offset == offset
    ensures q.priceEvaluation.Some? <==> f.priceEvaluation.Some?
  {
    ListingQuery(
      f.baseModel, f.minYear, f.maxYear, f.minPrice, f.maxPrice, f.location,
      if f.priceEvaluation.Some? then Some(EvaluationName(f.priceEvaluation.value)) else None,
      None, limit, offset)
  }

  /** With no active filter the search keeps exactly the active listings. */
  lemma NoFiltersMatchAllActive(f: FilterState, limit: Option<nat>, offset: Option<nat>, l: Listing)
    requires !HasActiveFilters(f)
    ensures MatchesQuery(ToQuery(f, limit, offset), l) <==> IsActive(l)
  {
  }

  /**
   * A filter the form shows as active is one the search applies: for a normalized
   * record, the rows the search keeps are exactly the active ones that meet each
   * key that holds a value.
   */
  lemma SearchAppliesEveryKey(f: FilterState, limit: Option<nat>, offset: Option<nat>, l: Listing)
    requires Normalized(f)
    ensures MatchesQuery(ToQuery(f, limit, offset), l) <==>
      && IsActive(l)
      && (f.baseModel.Some? ==> l.baseModel == f.baseModel.value)
      && (f.minYear.Some? ==> l.year >= f.minYear.value)
      && (f.maxYear.Some? ==> l.year <= f.maxYear.value)
      && (f.minPrice.Some? ==> l.price >= f.minPrice.value)
      && (f.maxPrice.Some? ==> l.price <= f.maxPrice.value)
      && (f.location.Some? ==> l.location.Some? && Contains(l.location.value, f.location.value))
      && (f.priceEvaluation.Some? ==> l.priceEvaluation == f.priceEvaluation)
  {
    if f.priceEvaluation.Some? && l.priceEvaluation.Some? {
      EvaluationNameInjective(l.priceEvaluation.value, f.priceEvaluation.value);
    }
    assert f.priceEvaluation.Some? ==> EvaluationName(f.priceEvaluation.value) != "";
  }

  /** The year choices: twenty years counting down from the current one. */
  function Years(currentYear: int): (r: seq<int>)
    ensures |r| == 20 && r[0] == currentYear
    ensures forall i :: 1 <= i < |r| ==> r[i] == r[i - 1] - 1
  {
    seq(20, i => currentYear - i)
  }

  /** The choices are exactly the years from nineteen before the current one up to it. */
  lemma {:induction false} YearsRange(currentYear: int, y: int)
    ensures y in Years(currentYear) <==> currentYear - 19 <= y <= currentYear
  {
    var r := Years(currentYear);
    assert forall i :: 0 <= i < |r| ==> r[i] == currentYear - i by {
      forall i | 0 <= i < |r| ensures r[i] == currentYear - i {
        YearsStep(r, currentYear, i);
      }
    }
    if currentYear - 19 <= y <= currentYear {
      assert r[currentYear - y] == y;
    }
  }

  lemma {:induction false} YearsStep(r: seq<int>, currentYear: int, i: nat)
    requires |r| >= 1 && r[0] == currentYear
    requires forall j :: 1 <= j < |r| ==> r[j] == r[j - 1] - 1
    requires i < |r|
    ensures r[i] == currentYear - i
  {
    if i > 0 {
      YearsStep(r, currentYear, i - 1);
    }
  }

  /** The form component: its filter record and whether the extra filters are expanded. */
  class SearchForm {
    var filters: FilterState
    var expanded: bool

    constructor(initial: FilterState)
      ensures filters == initial && !expanded
    {
      filters := initial;
      expanded := false;
    }

    /** `updateFilter`. */
    method UpdateFilter(e: Edit)
      modifies this
      ensures filters == Updated(old(filters), e)
      ensures expanded == old(expanded)
    {
      filters := Updated(filters, e);
    }

    /** `applyFilters`: reports the record as it stands, without changing it. */
    method ApplyFilters() returns (reported: FilterState)
      ensures reported == filters
    {
      reported := filters;
    }

    /** `clearFilters`: empties the record and reports the empty record; nothing is active after. */
    method ClearFilters() returns (reported: FilterState)
      modifies this
      ensures filters == NoFilters && reported == NoFilters
      ensures !HasActiveFilters(filters)
      ensures expanded == old(expanded)
    {
      filters := NoFilters;
      reported := NoFilters;
    }

    method ToggleExpanded()
      modifies this
      ensures expanded == !old(expanded)
      ensures filters == old(filters)
    {
      expanded := !expanded;
    }
  }
}
