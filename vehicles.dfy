/**
 * The vehicles page: filters read from the URL, the page number, the search it
 * sends (twelve listings a page), the page strip and the previous/next buttons,
 * and the reliability score each card shows.
 */
module VehiclesPage {
  import opened Wrappers
  import opened Schema
  import opened Seqs
  import opened Store
  import opened SearchFilterForm
  import Router

  /** Listings per page. */
  const PageSize := 12

  // ---- filters from the URL ----

  /** Position `i` holds the first pair named `name`. */
  predicate FirstPairAt(params: seq<(string, string)>, name: string, i: int) {
    0 <= i < |params| && params[i].0 == name && forall j :: 0 <= j < i ==> params[j].0 != name
  }

  /** `URLSearchParams.get`: the value of the first pair with that name, if any. */
  function ParamGet(params: seq<(string, string)>, name: string): (r: Option<string>)
    ensures r.None? <==> forall i :: 0 <= i < |params| ==> params[i].0 != name
    ensures r.Some? ==> exists i :: FirstPairAt(params, name, i) && params[i].1 == r.value
    decreases |params|
  {
    if params == [] then None
    else if params[0].0 == name then Some(params[0].1)
    else
      var r := ParamGet(params[1..], name);
      assert r.Some? ==> exists i :: FirstPairAt(params, name, i) && params[i].1 == r.value by {
        if r.Some? {
          var i :| FirstPairAt(params[1..], name, i) && params[1..][i].1 == r.value;
          assert FirstPairAt(params, name, i + 1) by {
            forall j | 0 <= j < i + 1 ensures params[j].0 != name {
              if j > 0 {
                assert params[j] == params[1..][j - 1];
              }
            }
          }
        }
      }
      r
  }

  /** The rating named by a URL value: only the three spellings the search accepts. */
  function RatingNamed(s: string): (r: Option<PriceEvaluation>)
    ensures r.Some? ==> r.value != Unknown && EvaluationName(r.value) == s
    ensures r.None? ==> forall e :: e != Unknown ==> EvaluationName(e) != s
  {
    if s == "good_deal" then Some(GoodDeal)
    else if s == "fair_price" then Some(FairPrice)
    else if s == "overpriced" then Some(Overpriced)
    else None
  }

  /**
   * The filters the page starts with: the `baseModel` parameter when it is
   * non-empty, and the `priceEvaluation` parameter when it is one of the three
   * ratings; every other key is absent.
   */
  function InitialFilters(params: seq<(string, string)>): (f: FilterState)
    ensures f.minYear.None? && f.maxYear.None? && f.minPrice.None? && f.maxPrice.None? && f.location.None?
    ensures f.baseModel.Some? <==> ParamGet(params, "baseModel").Some? && ParamGet(params, "baseModel").value != ""
    ensures f.baseModel.Some? ==> ParamGet(params, "baseModel") == f.baseModel
    ensures f.priceEvaluation.Some? ==>
      f.priceEvaluation.value != Unknown && ParamGet(params, "priceEvaluation") == Some(EvaluationName(f.priceEvaluation.value))
    ensures (exists e :: e != Unknown && ParamGet(params, "priceEvaluation") == Some(EvaluationName(e))) ==> f.priceEvaluation.Some?
    ensures Normalized(f)
  {
    var bm := ParamGet(params, "baseModel");
    var pe := ParamGet(params, "priceEvaluation");
    FilterState(
      if bm.Some? && bm.value != "" then bm else None,
      None, None, None, None, None,
      if pe.Some? && pe.value != "" then RatingNamed(pe.value) else None)
  }

  // ---- pages ----

  /** `offset: page * limit`. */
  function Offset(page: nat): nat {
    page * PageSize
  }

  /** `Math.ceil((total || 0) / 12)`: the fewest pages of twelve that hold every match. */
  function TotalPages(total: nat): (n: nat)
    ensures n * PageSize >= total
    ensures n == 0 || (n - 1) * PageSize < total
  {
    (total + PageSize - 1) / PageSize
  }

  /** The search the page sends: the filters, twelve rows, starting at the page's offset. */
  function PageQuery(f: FilterState, page: nat): ListingQuery {
    ToQuery(f, Some(PageSize), Some(Offset(page)))
  }

  /**
   * Every page below the page count shows between one and twelve listings, all of
   * them matches in the search's order from position `page * 12` on.
   */
  lemma PageShowsItsSlice(st: Store, f: FilterState, page: nat)
    requires st.Online?
    ensures var q := PageQuery(f, page);
      var r := SearchSpec(st, q);
      && |r.listings| <= PageSize
      && (forall i :: 0 <= i < |r.listings| ==> r.listings[i] == SearchOrder(st.tables, q)[Offset(page) + i])
      && (page < TotalPages(r.total) ==> |r.listings| >= 1)
  {
  }

  /** The first position of the five-button strip. */
  function StripStart(page: int, totalPages: nat): int {
    if totalPages <= 5 then 0
    else if page < 3 then 0
    else if page > totalPages - 3 then totalPages - 5
    else page - 2
  }

  /** The page numbers of the strip: `min(5, totalPages)` consecutive numbers. */
  function PageStrip(page: int, totalPages: nat): (r: seq<int>)
    ensures |r| == if totalPages < 5 then totalPages else 5
    ensures forall i :: 1 <= i < |r| ==> r[i] == r[i - 1] + 1
  {
    var n := if totalPages < 5 then totalPages else 5;
    seq(n, i => StripStart(page, totalPages) + i)
  }

  /** For a page in range, the strip shows only real pages and always the current one. */
  lemma StripInRange(page: int, totalPages: nat)
    requires 0 <= page < totalPages
    ensures forall i :: 0 <= i < |PageStrip(page, totalPages)| ==> 0 <= PageStrip(page, totalPages)[i] < totalPages
    ensures page in PageStrip(page, totalPages)
  {
    var r := PageStrip(page, totalPages);
    var s := StripStart(page, totalPages);
    assert forall i :: 0 <= i < |r| ==> r[i] == s + i;
    assert r[page - s] == page;
  }

  /** The strip is drawn only when there is more than one page. */
  predicate ShowsPagination(totalPages: nat) {
    totalPages > 1
  }

  /** Where the previous button goes: one page back, never below the first. */
  function PrevPage(page: int): int {
    if page - 1 > 0 then page - 1 else 0
  }

  /** Where the next button goes: one page on, never past the last. */
  function NextPage(page: int, totalPages: nat): int {
    if totalPages - 1 < page + 1 then totalPages - 1 else page + 1
  }

  predicate PrevDisabled(page: int) {
    page == 0
  }

  predicate NextDisabled(page: int, totalPages: nat) {
    page >= totalPages - 1
  }

  /**
   * Both buttons keep a page in range, and each is disabled exactly where it would
   * not move: previous on the first page, next on the last.
   */
  lemma PrevNextStayInRange(page: int, totalPages: nat)
    requires 0 <= page < totalPages
    ensures 0 <= PrevPage(page) < totalPages && 0 <= NextPage(page, totalPages) < totalPages
    ensures PrevDisabled(page) <==> PrevPage(page) == page
    ensures NextDisabled(page, totalPages) <==> NextPage(page, totalPages) == page
    ensures !PrevDisabled(page) ==> PrevPage(page) == page - 1
    ensures !NextDisabled(page, totalPages) ==> NextPage(page, totalPages) == page + 1
  {
  }

  // ---- the cards ----

  /** `models?.find(m => m.baseModel === name)`: the first model with that name. */
  function FirstModel(models: seq<VehicleModel>, name: string): (r: Option<VehicleModel>)
    ensures r.None? <==> forall i :: 0 <= i < |models| ==> models[i].baseModel != name
    ensures r.Some? ==> r.value in models && r.value.baseModel == name
    ensures r.Some? ==> exists i ::
      && 0 <= i < |models| && models[i] == r.value
      && forall j :: 0 <= j < i ==> models[j].baseModel != name
    decreases |models|
  {
    if models == [] then None
    else if models[0].baseModel == name then Some(models[0])
    else
      assert forall i :: 0 <= i < |models[1..]| ==> models[1..][i] == models[i + 1];
      FirstModel(models[1..], name)
  }

  /** The score a card shows: its model's score, or 7 when no model matches or the score is 0. */
  function CardScore(models: Option<seq<VehicleModel>>, baseModel: string): (s: int)
    ensures s != 0
    ensures models.None? || FirstModel(models.value, baseModel).None? ==> s == DefaultReliabilityScore
    ensures models.Some? && FirstModel(models.value, baseModel).Some? ==>
      var m := FirstModel(models.value, baseModel).value;
      s == if m.reliabilityScore != 0 then m.reliabilityScore else DefaultReliabilityScore
  {
    Router.ShownScore(if models.Some? then FirstModel(models.value, baseModel) else None)
  }

  /** The fuel figures a card shows: those of the first model with the listing's name. */
  function CardFuel(models: Option<seq<VehicleModel>>, baseModel: string): Option<FuelEfficiency> {
    if models.Some? && FirstModel(models.value, baseModel).Some? then FirstModel(models.value, baseModel).value.fuelEfficiency
    else None
  }

  /** In a list with unique names there is at most one model per name. */
  lemma {:induction false} UniqueNameIsFirstAndLast(models: seq<VehicleModel>, name: string)
    requires ValidModels(models)
    ensures FirstModel(models, name) == Router.ModelLookup(models, name)
  {
    var f := FirstModel(models, name);
    var l := Router.ModelLookup(models, name);
    if f.Some? {
      var i :| 0 <= i < |models| && models[i] == f.value;
      var j :| 0 <= j < |models| && models[j] == l.value;
      assert models[i].baseModel == models[j].baseModel;
      assert i == j;
    }
  }

  /**
   * With the unique model names the schema guarantees, the page's cards show the
   * same score as the budget lookup of the router.
   */
  lemma CardScoreMatchesBudgetPick(models: seq<VehicleModel>, baseModel: string)
    requires ValidModels(models)
    ensures CardScore(Some(models), baseModel) == Router.ShownScore(Router.ModelLookup(models, baseModel))
  {
    UniqueNameIsFirstAndLast(models, baseModel);
  }

  // ---- the page component ----

  class Vehicles {
    var filters: FilterState
    var page: nat

    constructor(params: seq<(string, string)>)
      ensures filters == InitialFilters(params) && page == 0
    {
      filters := InitialFilters(params);
      page := 0;
    }

    /** `handleFilterChange`: takes the new filters and goes back to the first page. */
    method HandleFilterChange(f: FilterState)
      modifies this
      ensures filters == f && page == 0
    {
      filters := f;
      page := 0;
    }

    /** The "clear filters" button of the empty result: resets the filters only, the page stays. */
    method ClearFromEmptyResult()
      modifies this
      ensures filters == NoFilters && page == old(page)
    {
      filters := NoFilters;
    }

    method Previous()
      modifies this
      ensures page == PrevPage(old(page)) && filters == old(filters)
    {
      page := PrevPage(page);
    }

    /** The next button exists only while the strip is drawn, that is with more than one page. */
    method Next(totalPages: nat)
      requires ShowsPagination(totalPages)
      modifies this
      ensures page == NextPage(old(page), totalPages) && filters == old(filters)
    {
      page := NextPage(page, totalPages);
    }

    /** A strip button: goes to the page it shows. */
    method GoTo(n: nat)
      modifies this
      ensures page == n && filters == old(filters)
    {
      page := n;
    }

    /** The search the page sends for its current state. */
    function Query(): ListingQuery
      reads this
    {
      PageQuery(filters, page)
    }
  }
}
