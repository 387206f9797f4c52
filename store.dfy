/**
 * The database layer: reads over the five tables and the two writes the core
 * makes (a chat row, a user upsert). The tables are sequences in the order the
 * store returns rows when a query does not order them; `ORDER BY` is a stable
 * sort of that order. When no connection is available every read returns an
 * empty result (or nothing) and every write is skipped.
 */
module Store {
  import opened Wrappers
  import opened Text
  import opened Schema
  import opened Seqs

  datatype Tables = Tables(
    users: seq<UserRow>,
    models: seq<VehicleModel>,
    listings: seq<Listing>,
    prices: seq<MarketPrice>,
    chats: seq<ChatRow>)

  /** No connection (no database URL configured, or the driver failed to start), or a live database. */
  datatype Store = Offline | Online(tables: Tables)

  /** `getAllVehicleModels`: the model table in store order. */
  function AllModels(st: Store): seq<VehicleModel> {
    if st.Online? then st.tables.models else []
  }

  /** JavaScript truthiness of an optional string and of an optional number. */
  predicate SetText(o: Option<string>) {
    o.Some? && o.value != ""
  }

  predicate SetNumber(o: Option<int>) {
    o.Some? && o.value != 0
  }

  /** `ORDER BY createdAt DESC` as an ascending key. */
  function ListingNewestFirst(l: Listing): int {
    -l.createdAt
  }

  function ChatNewestFirst(c: ChatRow): int {
    -c.createdAt
  }

  /** `createdAt` as an ascending key: oldest first. */
  function CreatedAt(c: ChatRow): int {
    c.createdAt
  }

  function PriceKey(l: Listing): int {
    l.price
  }

  // ---- searchListings ----

  datatype ListingQuery = ListingQuery(
    baseModel: Option<string>,
    minYear: Option<int>,
    maxYear: Option<int>,
    minPrice: Option<int>,
    maxPrice: Option<int>,
    location: Option<string>,
    priceEvaluation: Option<string>,
    source: Option<string>,
    limit: Option<nat>,
    offset: Option<nat>)

  /** One `WHERE` condition of the listing search. */
  datatype Condition =
    | ActiveIs
    | BaseModelIs(model: string)
    | YearAtLeast(minYear: int)
    | YearAtMost(maxYear: int)
    | PriceAtLeast(minPrice: int)
    | PriceAtMost(maxPrice: int)
    | LocationLike(fragment: string)
    | EvaluationIs(evaluation: string)
    | SourceIs(source: string)

  /** A condition on a row; a comparison with a NULL column is not true. */
  predicate Holds(c: Condition, l: Listing) {
    match c
    case ActiveIs => IsActive(l)
    case BaseModelIs(m) => l.baseModel == m
    case YearAtLeast(y) => l.year >= y
    case YearAtMost(y) => l.year <= y
    case PriceAtLeast(p) => l.price >= p
    case PriceAtMost(p) => l.price <= p
    case LocationLike(f) => l.location.Some? && Contains(l.location.value, f)
    case EvaluationIs(e) => l.priceEvaluation.Some? && EvaluationName(l.priceEvaluation.value) == e
    case SourceIs(s) => l.source == s
  }

  predicate AllHold(cs: seq<Condition>, l: Listing) {
    forall i :: 0 <= i < |cs| ==> Holds(cs[i], l)
  }

  /**
   * What a search means, filter by filter: an active row that meets every filter
   * whose value is truthy; a filter given as 0 or "" is ignored.
   */
  predicate MatchesQuery(q: ListingQuery, l: Listing) {
    && IsActive(l)
    && (SetText(q.baseModel) ==> l.baseModel == q.baseModel.value)
    && (SetNumber(q.minYear) ==> l.year >= q.minYear.value)
    && (SetNumber(q.maxYear) ==> l.year <= q.maxYear.value)
    && (SetNumber(q.minPrice) ==> l.price >= q.minPrice.value)
    && (SetNumber(q.maxPrice) ==> l.price <= q.maxPrice.value)
    && (SetText(q.location) ==> l.location.Some? && Contains(l.location.value, q.location.value))
    && (SetText(q.priceEvaluation) ==> l.priceEvaluation.Some? && EvaluationName(l.priceEvaluation.value) == q.priceEvaluation.value)
    && (SetText(q.source) ==> l.source == q.source.value)
  }

  /** The conjunction of a list holds exactly when each condition in it holds. */
  lemma AllHoldMembers(cs: seq<Condition>, l: Listing)
    ensures AllHold(cs, l) <==> forall c :: c in cs ==> Holds(c, l)
  {
    if forall c :: c in cs ==> Holds(c, l) {
      forall i | 0 <= i < |cs| ensures Holds(cs[i], l) {
        assert cs[i] in cs;
      }
    }
  }

  /** `if (filter) conditions.push(c)`: the list gains `c` exactly when the filter is set. */
  method PushWhen(cs: seq<Condition>, isSet: bool, c: Condition) returns (r: seq<Condition>)
    ensures |r| >= |cs| && forall i :: 0 <= i < |cs| ==> r[i] == cs[i]
    ensures forall x :: x in r <==> x in cs || (isSet && x == c)
  {
    r := cs;
    if isSet {
      r := cs + [c];
    }
  }

  /** The conditions a query asks for: the active flag and one per truthy filter. */
  predicate Requested(q: ListingQuery, c: Condition) {
    || c == ActiveIs
    || (SetText(q.baseModel) && c == BaseModelIs(q.baseModel.value))
    || (SetNumber(q.minYear) && c == YearAtLeast(q.minYear.value))
    || (SetNumber(q.maxYear) && c == YearAtMost(q.maxYear.value))
    || (SetNumber(q.minPrice) && c == PriceAtLeast(q.minPrice.value))
    || (SetNumber(q.maxPrice) && c == PriceAtMost(q.maxPrice.value))
    || (SetText(q.location) && c == LocationLike(q.location.value))
    || (SetText(q.priceEvaluation) && c == EvaluationIs(q.priceEvaluation.value))
    || (SetText(q.source) && c == SourceIs(q.source.value))
  }

  /** A list holding exactly the requested conditions selects exactly the rows the query means. */
  lemma RequestedMeansQuery(q: ListingQuery, cs: seq<Condition>, l: Listing)
    requires forall c :: c in cs <==> Requested(q, c)
    ensures AllHold(cs, l) <==> MatchesQuery(q, l)
  {
    AllHoldMembers(cs, l);
    if AllHold(cs, l) {
      assert Holds(ActiveIs, l);
      assert SetText(q.baseModel) ==> Holds(BaseModelIs(q.baseModel.value), l);
      assert SetNumber(q.minYear) ==> Holds(YearAtLeast(q.minYear.value), l);
      assert SetNumber(q.maxYear) ==> Holds(YearAtMost(q.maxYear.value), l);
      assert SetNumber(q.minPrice) ==> Holds(PriceAtLeast(q.minPrice.value), l);
      assert SetNumber(q.maxPrice) ==> Holds(PriceAtMost(q.maxPrice.value), l);
      assert SetText(q.location) ==> Holds(LocationLike(q.location.value), l);
      assert SetText(q.priceEvaluation) ==> Holds(EvaluationIs(q.priceEvaluation.value), l);
      assert SetText(q.source) ==> Holds(SourceIs(q.source.value), l);
    }
  }

  /** The condition list of a search: the active flag, then one condition per truthy filter. */
  method BuildConditions(q: ListingQuery) returns (cs: seq<Condition>)
    ensures |cs| >= 1 && cs[0] == ActiveIs
    ensures forall c :: c in cs <==> Requested(q, c)
    ensures forall l :: AllHold(cs, l) <==> MatchesQuery(q, l)
  {
    cs := [ActiveIs];
    cs := PushWhen(cs, SetText(q.baseModel), BaseModelIs(q.baseModel.GetOr("")));
    cs := PushWhen(cs, SetNumber(q.minYear), YearAtLeast(q.minYear.GetOr(0)));
    cs := PushWhen(cs, SetNumber(q.maxYear), YearAtMost(q.maxYear.GetOr(0)));
    cs := PushWhen(cs, SetNumber(q.minPrice), PriceAtLeast(q.minPrice.GetOr(0)));
    cs := PushWhen(cs, SetNumber(q.maxPrice), PriceAtMost(q.maxPrice.GetOr(0)));
    cs := PushWhen(cs, SetText(q.location), LocationLike(q.location.GetOr("")));
    cs := PushWhen(cs, SetText(q.priceEvaluation), EvaluationIs(q.priceEvaluation.GetOr("")));
    cs := PushWhen(cs, SetText(q.source), SourceIs(q.source.GetOr("")));
    forall l ensures AllHold(cs, l) <==> MatchesQuery(q, l) {
      RequestedMeansQuery(q, cs, l);
    }
  }

  datatype SearchResult = SearchResult(listings: seq<Listing>, total: nat)

  /** `limit || 20` and `offset || 0`. */
  function PageLimit(q: ListingQuery): nat {
    if q.limit.Some? && q.limit.value != 0 then q.limit.value else 20
  }

  function PageOffset(q: ListingQuery): nat {
    q.offset.GetOr(0)
  }

  /** The matching rows, newest first. */
  function SearchOrder(t: Tables, q: ListingQuery): seq<Listing> {
    SortBy(Filter(t.listings, l => MatchesQuery(q, l)), ListingNewestFirst)
  }

  /** The page `[offset, offset + limit)` of the matches, and the number of all matches. */
  function SearchSpec(st: Store, q: ListingQuery): SearchResult {
    if st.Offline? then SearchResult([], 0)
    else
      var ordered := SearchOrder(st.tables, q);
      SearchResult(Take(Drop(ordered, PageOffset(q)), PageLimit(q)), |ordered|)
  }

  /** `searchListings`: builds the condition list, then reads one page and the count. */
  method SearchListings(st: Store, q: ListingQuery) returns (r: SearchResult)
    ensures r == SearchSpec(st, q)
  {
    if st.Offline? {
      return SearchResult([], 0);
    }
    var cs := BuildConditions(q);
    FilterAgree(st.tables.listings, l => AllHold(cs, l), l => MatchesQuery(q, l));
    var matched := Filter(st.tables.listings, l => AllHold(cs, l));
    var ordered := SortBy(matched, ListingNewestFirst);
    r := SearchResult(Take(Drop(ordered, PageOffset(q)), PageLimit(q)), |matched|);
  }

  /**
   * Every listing on the page is a stored row that meets the query; the page holds
   * at most `limit` rows and no more than the total; it is newest first.
   */
  lemma SearchPageSound(st: Store, q: ListingQuery)
    ensures var r := SearchSpec(st, q);
      && |r.listings| <= PageLimit(q) && |r.listings| <= r.total
      && (forall i :: 0 <= i < |r.listings| ==> r.listings[i] in AllListings(st) && MatchesQuery(q, r.listings[i]))
      && SortedBy(r.listings, ListingNewestFirst)
  {
    if st.Online? {
      var ordered := SearchOrder(st.tables, q);
      var page := Take(Drop(ordered, PageOffset(q)), PageLimit(q));
      var matched := Filter(st.tables.listings, l => MatchesQuery(q, l));
      forall i | 0 <= i < |page| ensures page[i] in st.tables.listings && MatchesQuery(q, page[i]) {
        SortByMembers(matched, ListingNewestFirst, page[i]);
      }
    }
  }

  /** The total counts every stored row that meets the query, however the page is chosen. */
  lemma SearchTotalComplete(st: Store, q: ListingQuery, l: Listing)
    requires st.Online? && l in st.tables.listings && MatchesQuery(q, l)
    ensures l in SearchOrder(st.tables, q)
    ensures SearchSpec(st, q).total >= 1
  {
    var matched := Filter(st.tables.listings, x => MatchesQuery(q, x));
    SortByMembers(matched, ListingNewestFirst, l);
  }

  function AllListings(st: Store): seq<Listing> {
    if st.Online? then st.tables.listings else []
  }

  // ---- getListingsByBudget ----

  /**
   * The score a `Map` built from the model list gives for `name`: the last
   * model with that name, since a later entry overwrites an earlier one.
   */
  function ScoreLookup(models: seq<VehicleModel>, name: string): (r: Option<int>)
    ensures r.None? <==> forall i :: 0 <= i < |models| ==> models[i].baseModel != name
    ensures r.Some? ==> exists i ::
      && 0 <= i < |models| && models[i].baseModel == name && models[i].reliabilityScore == r.value
      && forall j :: i < j < |models| ==> models[j].baseModel != name
  {
    if models == [] then None
    else if models[|models| - 1].baseModel == name then Some(models[|models| - 1].reliabilityScore)
    else ScoreLookup(models[..|models| - 1], name)
  }

  /** With unique names the lookup finds the one model of that name. */
  lemma ScoreLookupUnique(models: seq<VehicleModel>, i: nat)
    requires ValidModels(models) && i < |models|
    ensures ScoreLookup(models, models[i].baseModel) == Some(models[i].reliabilityScore)
  {
  }

  /** `modelScores.get(baseModel) || 0`. */
  function FloorScore(models: seq<VehicleModel>, name: string): int {
    ScoreLookup(models, name).GetOr(0)
  }

  predicate WithinBudget(l: Listing, maxBudget: int) {
    IsActive(l) && l.price <= maxBudget
  }

  /**
   * `getListingsByBudget`: the active rows priced at most `maxBudget`, cheapest
   * first; with a truthy floor, only those whose model scores at least the floor,
   * a row whose model is missing scoring 0.
   */
  function ListingsByBudget(st: Store, maxBudget: int, minReliability: Option<int>): (r: seq<Listing>)
    ensures st.Offline? ==> r == []
    ensures forall i :: 0 <= i < |r| ==>
      && r[i] in AllListings(st) && WithinBudget(r[i], maxBudget)
      && (SetNumber(minReliability) ==> FloorScore(AllModels(st), r[i].baseModel) >= minReliability.value)
    ensures forall l :: (l in AllListings(st) && WithinBudget(l, maxBudget)
      && (SetNumber(minReliability) ==> FloorScore(AllModels(st), l.baseModel) >= minReliability.value)) ==> l in r
    ensures SortedBy(r, PriceKey)
  {
    if st.Offline? then []
    else
      var rows := Filter(st.tables.listings, l => WithinBudget(l, maxBudget));
      var sorted := SortBy(rows, PriceKey);
      assert forall l :: l in rows <==> l in st.tables.listings && WithinBudget(l, maxBudget);
      assert forall l :: l in sorted <==> l in rows by {
        forall l ensures l in sorted <==> l in rows {
          SortByMembers(rows, PriceKey, l);
        }
      }
      if SetNumber(minReliability) then
        var floor := minReliability.value;
        FilterKeepsSorted(sorted, (l: Listing) => FloorScore(st.tables.models, l.baseModel) >= floor, PriceKey);
        Filter(sorted, (l: Listing) => FloorScore(st.tables.models, l.baseModel) >= floor)
      else sorted
  }

  /** A row the budget query selects: within the budget and, with a truthy floor, scoring at least it. */
  predicate QualifiesForBudget(models: seq<VehicleModel>, l: Listing, maxBudget: int, minReliability: Option<int>) {
    WithinBudget(l, maxBudget) && (SetNumber(minReliability) ==> FloorScore(models, l.baseModel) >= minReliability.value)
  }

  /** The budget query returns each qualifying row exactly as often as it is stored, only reordered. */
  lemma {:induction false} ListingsByBudgetPermutation(st: Store, maxBudget: int, minReliability: Option<int>)
    ensures st.Online? ==>
      multiset(ListingsByBudget(st, maxBudget, minReliability))
        == multiset(Filter(st.tables.listings, l => QualifiesForBudget(st.tables.models, l, maxBudget, minReliability)))
  {
    if st.Online? {
      var within := (l: Listing) => WithinBudget(l, maxBudget);
      var qualifies := (l: Listing) => QualifiesForBudget(st.tables.models, l, maxBudget, minReliability);
      var rows := Filter(st.tables.listings, within);
      var sorted := SortBy(rows, PriceKey);
      if SetNumber(minReliability) {
        var floor := minReliability.value;
        var floorOk := (l: Listing) => FloorScore(st.tables.models, l.baseModel) >= floor;
        assert ListingsByBudget(st, maxBudget, minReliability) == Filter(sorted, floorOk);
        FilterOfReordered(st.tables.listings, within, sorted, floorOk, qualifies);
      } else {
        assert ListingsByBudget(st, maxBudget, minReliability) == sorted;
        FilterAgree(st.tables.listings, within, qualifies);
      }
    }
  }

  // ---- getGoodDeals ----

  predicate IsGoodDeal(l: Listing) {
    IsActive(l) && l.priceEvaluation == Some(GoodDeal)
  }

  function GoodDealRows(listings: seq<Listing>): seq<Listing> {
    Filter(listings, IsGoodDeal)
  }

  /** `getGoodDeals`: the newest active good deals, at most `limit` of them. */
  function GoodDeals(st: Store, limit: nat): (r: seq<Listing>)
    ensures |r| <= limit
    ensures forall i :: 0 <= i < |r| ==> r[i] in AllListings(st) && IsGoodDeal(r[i])
    ensures SortedBy(r, ListingNewestFirst)
    ensures |r| < limit ==> forall l :: l in AllListings(st) && IsGoodDeal(l) ==> l in r
  {
    var r := TopBy(GoodDealRows(AllListings(st)), ListingNewestFirst, limit);
    TopOfFilter(AllListings(st), IsGoodDeal, ListingNewestFirst, limit, r);
    r
  }

  /**
   * The good deals kept are the newest ones: `limit` of them, or all when there
   * are fewer, and every good deal left out is no newer than every one kept.
   */
  lemma {:induction false} GoodDealsNewest(st: Store, limit: nat)
    ensures var r := GoodDeals(st, limit);
      && |r| == (if limit <= |GoodDealRows(AllListings(st))| then limit else |GoodDealRows(AllListings(st))|)
      && forall l :: l in AllListings(st) && IsGoodDeal(l) && l !in r ==>
           forall i :: 0 <= i < |r| ==> l.createdAt <= r[i].createdAt
  {
    var r := GoodDeals(st, limit);
    assert r == TopBy(GoodDealRows(AllListings(st)), ListingNewestFirst, limit);
    TopOfFilterBound(AllListings(st), IsGoodDeal, ListingNewestFirst, limit, r);
    forall l, i | l in AllListings(st) && IsGoodDeal(l) && l !in r && 0 <= i < |r|
      ensures l.createdAt <= r[i].createdAt
    {
      assert ListingNewestFirst(r[i]) <= ListingNewestFirst(l);
    }
  }

  /** No stored listing comes back twice among the good deals. */
  lemma {:induction false} GoodDealsNoRepeats(st: Store, limit: nat)
    ensures multiset(GoodDeals(st, limit)) <= multiset(AllListings(st))
  {
    var r := GoodDeals(st, limit);
    assert r == TopBy(GoodDealRows(AllListings(st)), ListingNewestFirst, limit);
    TopOfFilterNoRepeats(AllListings(st), IsGoodDeal, ListingNewestFirst, limit, r);
  }

  // ---- saveChatMessage, getChatHistory ----

  /** The row the store creates for a chat insert: the next id and the current time. */
  function ChatRowFor(msg: NewChatMessage, id: nat, now: int): ChatRow {
    ChatRow(id, msg.sessionId, msg.userId, msg.role, msg.content, msg.metadata, now)
  }

  /**
   * `saveChatMessage` as a state change: `None` when the insert is rejected (a
   * session id or a content that does not fit its column), otherwise the new store.
   * Without a connection nothing is written and nothing is reported.
   */
  function SaveChat(st: Store, msg: NewChatMessage, now: int): (r: Option<Store>)
    ensures st.Offline? ==> r == Some(Offline)
    ensures st.Online? ==> (r.Some? <==> ChatRowFits(msg))
    ensures st.Online? && r.Some? ==> (r.value.Online?
      && r.value.tables == st.tables.(chats := st.tables.chats + [ChatRowFor(msg, |st.tables.chats| + 1, now)]))
  {
    if st.Offline? then Some(Offline)
    else if !ChatRowFits(msg) then None
    else Some(Online(st.tables.(chats := st.tables.chats + [ChatRowFor(msg, |st.tables.chats| + 1, now)])))
  }

  /** A saved chat row keeps every stored chat row within its column limits. */
  lemma SaveChatKeepsValid(st: Store, msg: NewChatMessage, now: int)
    requires st.Online? && ValidChats(st.tables.chats)
    requires SaveChat(st, msg, now).Some?
    ensures ValidChats(SaveChat(st, msg, now).value.tables.chats)
  {
    var c := SaveChat(st, msg, now).value.tables.chats;
    assert c[|c| - 1] == ChatRowFor(msg, |st.tables.chats| + 1, now);
  }

  function SessionRows(chats: seq<ChatRow>, sessionId: string): seq<ChatRow> {
    Filter(chats, (c: ChatRow) => c.sessionId == sessionId)
  }

  /** `getChatHistory`: the session's rows, newest first, at most `limit` of them. */
  function ChatHistory(st: Store, sessionId: string, limit: nat): (r: seq<ChatRow>)
    ensures st.Offline? ==> r == []
    ensures |r| <= limit
    ensures forall i :: 0 <= i < |r| ==> r[i] in AllChats(st) && r[i].sessionId == sessionId
    ensures SortedBy(r, ChatNewestFirst)
    ensures |r| < limit ==> forall c :: c in AllChats(st) && c.sessionId == sessionId ==> c in r
  {
    var r := TopBy(SessionRows(AllChats(st), sessionId), ChatNewestFirst, limit);
    TopOfFilter(AllChats(st), (c: ChatRow) => c.sessionId == sessionId, ChatNewestFirst, limit, r);
    r
  }

  /**
   * The history is the session's newest rows: `limit` of them, or all when there
   * are fewer, and every session row left out is no newer than every row kept.
   */
  lemma {:induction false} ChatHistoryNewest(st: Store, sessionId: string, limit: nat)
    ensures var r := ChatHistory(st, sessionId, limit);
      && |r| == (if limit <= |SessionRows(AllChats(st), sessionId)| then limit else |SessionRows(AllChats(st), sessionId)|)
      && forall c :: c in AllChats(st) && c.sessionId == sessionId && c !in r ==>
           forall i :: 0 <= i < |r| ==> c.createdAt <= r[i].createdAt
  {
    var p := (c: ChatRow) => c.sessionId == sessionId;
    var r := ChatHistory(st, sessionId, limit);
    assert r == TopBy(SessionRows(AllChats(st), sessionId), ChatNewestFirst, limit);
    TopOfFilterBound(AllChats(st), p, ChatNewestFirst, limit, r);
    forall c, i | c in AllChats(st) && c.sessionId == sessionId && c !in r && 0 <= i < |r|
      ensures c.createdAt <= r[i].createdAt
    {
      assert p(c);
      assert ChatNewestFirst(r[i]) <= ChatNewestFirst(c);
    }
  }

  /** No stored row comes back twice in the history. */
  lemma {:induction false} ChatHistoryNoRepeats(st: Store, sessionId: string, limit: nat)
    ensures multiset(ChatHistory(st, sessionId, limit)) <= multiset(AllChats(st))
  {
    var r := ChatHistory(st, sessionId, limit);
    assert r == TopBy(SessionRows(AllChats(st), sessionId), ChatNewestFirst, limit);
    TopOfFilterNoRepeats(AllChats(st), (c: ChatRow) => c.sessionId == sessionId, ChatNewestFirst, limit, r);
  }

  /** A row saved later than every stored row heads its session's history. */
  lemma {:induction false} SavedRowLeadsHistory(st: Store, msg: NewChatMessage, now: int, limit: nat)
    requires st.Online? && limit >= 1
    requires forall i :: 0 <= i < |st.tables.chats| ==> st.tables.chats[i].createdAt < now
    requires ChatRowFits(msg)
    ensures var h := ChatHistory(SaveChat(st, msg, now).value, msg.sessionId, limit);
      |h| >= 1 && h[0] == ChatRowFor(msg, |st.tables.chats| + 1, now)
  {
    var st1 := SaveChat(st, msg, now).value;
    var chats := st1.tables.chats;
    var row := ChatRowFor(msg, |st.tables.chats| + 1, now);
    assert chats[|chats| - 1] == row;
    var rows := SessionRows(chats, msg.sessionId);
    assert row in rows;
    forall i | 0 <= i < |rows| && rows[i] != row ensures ChatNewestFirst(row) < ChatNewestFirst(rows[i]) {
      var k :| 0 <= k < |chats| && chats[k] == rows[i];
      if k < |chats| - 1 {
        assert chats[k] == st.tables.chats[k];
      }
    }
    TopByFirst(rows, ChatNewestFirst, limit, row);
    assert ChatHistory(st1, msg.sessionId, limit) == TopBy(rows, ChatNewestFirst, limit);
  }

  /**
   * The history reversed, as both chat procedures hand it on: the session's
   * newest `limit` rows (all when there are fewer), oldest first.
   */
  lemma {:induction false} HistoryOldestFirst(st: Store, sessionId: string, limit: nat)
    ensures var w := Reverse(ChatHistory(st, sessionId, limit));
      && |w| == (if limit <= |SessionRows(AllChats(st), sessionId)| then limit else |SessionRows(AllChats(st), sessionId)|)
      && (forall i :: 0 <= i < |w| ==> w[i] in AllChats(st) && w[i].sessionId == sessionId)
      && SortedBy(w, CreatedAt)
  {
    var h := ChatHistory(st, sessionId, limit);
    ChatHistoryNewest(st, sessionId, limit);
    ReverseKeeps(h, (c: ChatRow) => c in AllChats(st) && c.sessionId == sessionId);
    ReverseSorted(h, ChatNewestFirst, CreatedAt);
  }

  /** The reversed history repeats no stored row. */
  lemma {:induction false} HistoryNoRepeats(st: Store, sessionId: string, limit: nat)
    ensures multiset(Reverse(ChatHistory(st, sessionId, limit))) <= multiset(AllChats(st))
  {
    ChatHistoryNoRepeats(st, sessionId, limit);
    ReversePermutes(ChatHistory(st, sessionId, limit));
  }

  /** Every session row the reversed history leaves out is no newer than every row it holds. */
  lemma {:induction false} HistoryLeavesOutOlder(st: Store, sessionId: string, limit: nat)
    ensures var w := Reverse(ChatHistory(st, sessionId, limit));
      forall c :: c in AllChats(st) && c.sessionId == sessionId && c !in w ==>
        forall i :: 0 <= i < |w| ==> c.createdAt <= w[i].createdAt
  {
    ChatHistoryNewest(st, sessionId, limit);
    ReversedLeavesOutOlder(ChatHistory(st, sessionId, limit), AllChats(st), sessionId);
  }

  /** Reversing rows keeps the fact that every session row left out is no newer than every row kept. */
  lemma {:induction false} ReversedLeavesOutOlder(h: seq<ChatRow>, chats: seq<ChatRow>, sessionId: string)
    requires forall c :: c in chats && c.sessionId == sessionId && c !in h ==>
      forall i :: 0 <= i < |h| ==> c.createdAt <= h[i].createdAt
    ensures forall c :: c in chats && c.sessionId == sessionId && c !in Reverse(h) ==>
      forall i :: 0 <= i < |Reverse(h)| ==> c.createdAt <= Reverse(h)[i].createdAt
  {
    var w := Reverse(h);
    forall c, i | c in chats && c.sessionId == sessionId && c !in w && 0 <= i < |w|
      ensures c.createdAt <= w[i].createdAt
    {
      assert c !in h by {
        ReverseMembers(h);
      }
      assert w[i] == h[|h| - 1 - i];
    }
  }



  function AllChats(st: Store): seq<ChatRow> {
    if st.Online? then st.tables.chats else []
  }

  // ---- getAllChatSessions ----

  datatype SessionSummary = SessionSummary(sessionId: string, messageCount: nat, lastMessage: int)

  /** The distinct session ids of the chat rows, in order of first appearance. */
  function SessionIds(chats: seq<ChatRow>): (r: seq<string>)
    ensures forall i, j :: 0 <= i < j < |r| ==> r[i] != r[j]
    ensures forall i :: 0 <= i < |r| ==> exists k :: 0 <= k < |chats| && chats[k].sessionId == r[i]
    ensures forall k :: 0 <= k < |chats| ==> chats[k].sessionId in r
  {
    if chats == [] then []
    else
      var ids := SessionIds(chats[..|chats| - 1]);
      var last := chats[|chats| - 1].sessionId;
      assert forall k :: 0 <= k < |chats| - 1 ==> chats[..|chats| - 1][k] == chats[k];
      if last in ids then ids else ids + [last]
  }

  /** The latest `createdAt` among the rows (0 for no rows). */
  function Latest(rows: seq<ChatRow>): (t: int)
    ensures rows != [] ==> (exists k :: 0 <= k < |rows| && rows[k].createdAt == t)
    ensures forall k :: 0 <= k < |rows| ==> rows[k].createdAt <= t
  {
    if rows == [] then 0
    else if |rows| == 1 then rows[0].createdAt
    else
      var t := Latest(rows[1..]);
      assert forall k :: 1 <= k < |rows| ==> rows[k] == rows[1..][k - 1];
      if rows[0].createdAt >= t then rows[0].createdAt else t
  }

  /** One `GROUP BY sessionId` row: the count and the latest time of the session's rows. */
  function Summarize(chats: seq<ChatRow>, sessionId: string): SessionSummary {
    var rows := SessionRows(chats, sessionId);
    SessionSummary(sessionId, |rows|, Latest(rows))
  }

  function LatestFirst(s: SessionSummary): int {
    -s.lastMessage
  }

  function AllSummaries(chats: seq<ChatRow>): seq<SessionSummary> {
    Map(SessionIds(chats), (sid: string) => Summarize(chats, sid))
  }

  /**
   * `getAllChatSessions`: one summary per session, latest activity first, `limit`
   * of them or all when there are fewer; every session left out had its last
   * message no later than every session kept.
   */
  function ChatSessions(st: Store, limit: nat): (r: seq<SessionSummary>)
    ensures st.Offline? ==> r == []
    ensures |r| == if limit <= |SessionIds(AllChats(st))| then limit else |SessionIds(AllChats(st))|
    ensures SortedBy(r, LatestFirst)
    ensures KeepsFirst(AllSummaries(AllChats(st)), r, LatestFirst)
    ensures forall i :: 0 <= i < |r| ==> r[i] in AllSummaries(AllChats(st))
    ensures Distinct(r)
    ensures |SessionIds(AllChats(st))| <= limit ==>
      forall n :: 0 <= n < |SessionIds(AllChats(st))| ==> AllSummaries(AllChats(st))[n] in r
  {
    var all := AllSummaries(AllChats(st));
    SummariesDistinct(AllChats(st));
    var r := TopBy(all, LatestFirst, limit);
    assert |all| == |SessionIds(AllChats(st))|;
    r
  }

  /** A session `getAllChatSessions` leaves out had its last message no later than any session it lists. */
  lemma {:induction false} ChatSessionsLeaveOutOlder(st: Store, limit: nat, x: SessionSummary)
    requires x in AllSummaries(AllChats(st)) && x !in ChatSessions(st, limit)
    ensures forall i :: 0 <= i < |ChatSessions(st, limit)| ==> x.lastMessage <= ChatSessions(st, limit)[i].lastMessage
  {
    var r := ChatSessions(st, limit);
    assert forall i :: 0 <= i < |r| ==> LatestFirst(r[i]) <= LatestFirst(x);
  }

  /** Summaries of distinct sessions are distinct. */
  lemma SummariesDistinct(chats: seq<ChatRow>)
    ensures Distinct(AllSummaries(chats))
    ensures forall i :: 0 <= i < |AllSummaries(chats)| ==> AllSummaries(chats)[i].sessionId == SessionIds(chats)[i]
  {
  }

  /**
   * Each summary names a distinct session that has rows; its count is the number of
   * those rows (at least one) and its time is the latest of their times.
   */
  lemma ChatSessionsFaithful(st: Store, limit: nat)
    requires st.Online?
    ensures var r := ChatSessions(st, limit);
      var chats := st.tables.chats;
      && (forall i, j :: 0 <= i < j < |r| ==> r[i].sessionId != r[j].sessionId)
      && (forall i :: 0 <= i < |r| ==>
            && r[i].messageCount == |SessionRows(chats, r[i].sessionId)| >= 1
            && (forall k :: 0 <= k < |chats| && chats[k].sessionId == r[i].sessionId ==> chats[k].createdAt <= r[i].lastMessage)
            && (exists k :: 0 <= k < |chats| && chats[k].sessionId == r[i].sessionId && chats[k].createdAt == r[i].lastMessage))
  {
    var chats := st.tables.chats;
    var all := AllSummaries(chats);
    var r := ChatSessions(st, limit);
    forall i | 0 <= i < |r|
      ensures r[i].messageCount == |SessionRows(chats, r[i].sessionId)| >= 1
      ensures forall k :: 0 <= k < |chats| && chats[k].sessionId == r[i].sessionId ==> chats[k].createdAt <= r[i].lastMessage
      ensures exists k :: 0 <= k < |chats| && chats[k].sessionId == r[i].sessionId && chats[k].createdAt == r[i].lastMessage
    {
      SummaryFaithful(chats, r[i], all);
    }
    forall i, j | 0 <= i < j < |r| ensures r[i].sessionId != r[j].sessionId {
      SameSessionSameSummary(chats, r[i], r[j], all);
    }
  }

  /** Two summaries of the same session are the same summary. */
  lemma SameSessionSameSummary(chats: seq<ChatRow>, a: SessionSummary, b: SessionSummary, all: seq<SessionSummary>)
    requires all == AllSummaries(chats) && a in all && b in all
    ensures a.sessionId == b.sessionId ==> a == b
  {
    var ids := SessionIds(chats);
    SummariesDistinct(chats);
    var m :| 0 <= m < |all| && all[m] == a;
    var n :| 0 <= n < |all| && all[n] == b;
    assert a.sessionId == ids[m] && b.sessionId == ids[n];
    if m < n {
      assert ids[m] != ids[n];
    } else if n < m {
      assert ids[n] != ids[m];
    }
  }

  lemma SummaryFaithful(chats: seq<ChatRow>, s: SessionSummary, all: seq<SessionSummary>)
    requires all == AllSummaries(chats) && s in all
    ensures s.messageCount == |SessionRows(chats, s.sessionId)| >= 1
    ensures forall k :: 0 <= k < |chats| && chats[k].sessionId == s.sessionId ==> chats[k].createdAt <= s.lastMessage
    ensures exists k :: 0 <= k < |chats| && chats[k].sessionId == s.sessionId && chats[k].createdAt == s.lastMessage
  {
    var ids := SessionIds(chats);
    var n :| 0 <= n < |all| && all[n] == s;
    var sid := ids[n];
    assert sid in ids;
    assert s == Summarize(chats, sid);
    var rows := SessionRows(chats, sid);
    var k0 :| 0 <= k0 < |chats| && chats[k0].sessionId == sid;
    assert chats[k0] in rows;
    forall k | 0 <= k < |chats| && chats[k].sessionId == sid ensures chats[k].createdAt <= s.lastMessage {
      assert chats[k] in rows;
    }
    var m :| 0 <= m < |rows| && rows[m].createdAt == s.lastMessage;
    assert rows[m] in chats;
  }

  /** Every session appears when there are no more sessions than the limit. */
  lemma ChatSessionsComplete(st: Store, limit: nat, sid: string)
    requires st.Online? && |SessionIds(st.tables.chats)| <= limit
    requires exists k :: 0 <= k < |st.tables.chats| && st.tables.chats[k].sessionId == sid
    ensures exists i :: 0 <= i < |ChatSessions(st, limit)| && ChatSessions(st, limit)[i].sessionId == sid
  {
    var chats := st.tables.chats;
    var all := AllSummaries(chats);
    var ids := SessionIds(chats);
    var n :| 0 <= n < |ids| && ids[n] == sid;
    var r := ChatSessions(st, limit);
    assert all[n] in r;
    var i :| 0 <= i < |r| && r[i] == all[n];
    assert all[n] == Summarize(chats, sid);
  }

  // ---- getStats ----

  datatype StoreStats = StoreStats(totalListings: nat, totalModels: nat, goodDeals: nat, totalChats: nat)

  /** `getStats`: row counts, or nothing without a connection. */
  function Stats(st: Store): (r: Option<StoreStats>)
    ensures r.None? <==> st.Offline?
    ensures r.Some? ==> r.value.goodDeals <= r.value.totalListings
    ensures r.Some? ==> r.value.totalListings == |Filter(st.tables.listings, IsActive)|
    ensures r.Some? ==> r.value.goodDeals == |Filter(st.tables.listings, IsGoodDeal)|
  {
    if st.Offline? then None
    else
      FilterCountMonotone(st.tables.listings, IsGoodDeal, IsActive);
      Some(StoreStats(|Filter(st.tables.listings, IsActive)|, |st.tables.models|,
        |Filter(st.tables.listings, IsGoodDeal)|, |st.tables.chats|))
  }

  // ---- upsertUser ----

  /** The columns an upsert may write besides `openId`. */
  datatype UserColumn = NameCol | EmailCol | LoginMethodCol | LastSignedInCol | RoleCol

  datatype Cell = TextCell(text: Option<string>) | TimeCell(time: int) | RoleCell(role: UserRole)

  /** The inserted values and the `ON DUPLICATE KEY UPDATE` set. */
  datatype UserWrite = UserWrite(values: map<UserColumn, Cell>, updateSet: map<UserColumn, Cell>)

  const TextColumns: seq<UserColumn> := [NameCol, EmailCol, LoginMethodCol]

  function TextField(user: InsertUser, c: UserColumn): Field<string> {
    match c
    case NameCol => user.name
    case EmailCol => user.email
    case _ => user.loginMethod
  }

  /** The cell of a text field that is given (its value) or null (NULL). */
  function TextCellOf(f: Field<string>): Cell {
    TextCell(if f.Given? then Some(f.value) else None)
  }

  /** A text field that is given or null becomes a cell; an undefined one is not written. */
  function TextCells(user: InsertUser, cols: seq<UserColumn>): map<UserColumn, Cell> {
    map c | c in cols && !TextField(user, c).Omitted? :: TextCellOf(TextField(user, c))
  }

  /** The role written: the given one, else admin for the owner, else none. */
  function RoleChoice(user: InsertUser, ownerOpenId: string): Option<UserRole> {
    if user.role.Some? then user.role
    else if user.openId == ownerOpenId then Some(RoleAdmin)
    else None
  }

  /** The upsert's values and update set. */
  function UpsertWrite(user: InsertUser, ownerOpenId: string, now: int): UserWrite {
    var texts := TextCells(user, TextColumns);
    var signed := if user.lastSignedIn.Some? then texts[LastSignedInCol := TimeCell(user.lastSignedIn.value)] else texts;
    var roled := match RoleChoice(user, ownerOpenId)
      case Some(r) => signed[RoleCol := RoleCell(r)]
      case None => signed;
    var values := if LastSignedInCol in roled then roled else roled[LastSignedInCol := TimeCell(now)];
    var updateSet := if |roled| == 0 then roled[LastSignedInCol := TimeCell(now)] else roled;
    UserWrite(values, updateSet)
  }

  /** The record builder of `upsertUser`, one field at a time. */
  method BuildUpsert(user: InsertUser, ownerOpenId: string, now: int) returns (w: UserWrite)
    ensures w == UpsertWrite(user, ownerOpenId, now)
  {
    var values: map<UserColumn, Cell> := map[];
    var updateSet: map<UserColumn, Cell> := map[];
    for k := 0 to |TextColumns|
      invariant values == updateSet == TextCells(user, TextColumns[..k])
    {
      var c := TextColumns[k];
      assert TextColumns[..k + 1] == TextColumns[..k] + [c];
      var f := TextField(user, c);
      if !f.Omitted? {
        values := values[c := TextCellOf(f)];
        updateSet := updateSet[c := TextCellOf(f)];
      }
    }
    assert TextColumns[..|TextColumns|] == TextColumns;
    if user.lastSignedIn.Some? {
      values := values[LastSignedInCol := TimeCell(user.lastSignedIn.value)];
      updateSet := updateSet[LastSignedInCol := TimeCell(user.lastSignedIn.value)];
    }
    if user.role.Some? {
      values := values[RoleCol := RoleCell(user.role.value)];
      updateSet := updateSet[RoleCol := RoleCell(user.role.value)];
    } else if user.openId == ownerOpenId {
      values := values[RoleCol := RoleCell(RoleAdmin)];
      updateSet := updateSet[RoleCol := RoleCell(RoleAdmin)];
    }
    if LastSignedInCol !in values {
      values := values[LastSignedInCol := TimeCell(now)];
    }
    if |updateSet| == 0 {
      updateSet := updateSet[LastSignedInCol := TimeCell(now)];
    }
    w := UserWrite(values, updateSet);
  }

  /**
   * The upsert's promises: undefined text fields are not written, given and null ones
   * are; the role is the given one, else admin for the owner, else left alone; the
   * inserted sign-in time is the given one or now; the update set is never empty and
   * agrees with the inserted values on every column it names.
   */
  lemma UpsertWriteFaithful(user: InsertUser, ownerOpenId: string, now: int)
    ensures var w := UpsertWrite(user, ownerOpenId, now);
      && (forall c :: c in TextColumns ==> (c in w.updateSet <==> !TextField(user, c).Omitted?))
      && (RoleCol in w.updateSet <==> RoleChoice(user, ownerOpenId).Some?)
      && (RoleChoice(user, ownerOpenId).Some? ==> w.updateSet[RoleCol] == RoleCell(RoleChoice(user, ownerOpenId).value))
      && LastSignedInCol in w.values && w.values[LastSignedInCol] == TimeCell(user.lastSignedIn.GetOr(now))
      && |w.updateSet| > 0
      && (forall c :: c in w.updateSet ==> c in w.values && w.values[c] == w.updateSet[c])
  {
  }

  /** Column limits of the users table: openId varchar(64), email varchar(320), loginMethod varchar(64), name TEXT. */
  predicate UserWriteFits(openId: string, w: UserWrite) {
    && |openId| <= 64
    && (NameCol in w.values && w.values[NameCol].TextCell? && w.values[NameCol].text.Some? ==> Utf8Length(w.values[NameCol].text.value) <= TextMaxBytes)
    && (EmailCol in w.values && w.values[EmailCol].TextCell? && w.values[EmailCol].text.Some? ==> |w.values[EmailCol].text.value| <= 320)
    && (LoginMethodCol in w.values && w.values[LoginMethodCol].TextCell? && w.values[LoginMethodCol].text.Some? ==> |w.values[LoginMethodCol].text.value| <= 64)
  }

  /** The index of the row holding `openId`, if any. */
  function FindUser(users: seq<UserRow>, openId: string): (k: int)
    ensures -1 <= k < |users|
    ensures k == -1 <==> forall i :: 0 <= i < |users| ==> users[i].openId != openId
    ensures k >= 0 ==> users[k].openId == openId
  {
    if users == [] then -1
    else if users[|users| - 1].openId == openId then |users| - 1
    else FindUser(users[..|users| - 1], openId)
  }

  function TextOf(m: map<UserColumn, Cell>, c: UserColumn, prev: Option<string>): Option<string> {
    if c in m && m[c].TextCell? then m[c].text else prev
  }

  function TimeOf(m: map<UserColumn, Cell>, prev: int): int {
    if LastSignedInCol in m && m[LastSignedInCol].TimeCell? then m[LastSignedInCol].time else prev
  }

  function RoleOf(m: map<UserColumn, Cell>, prev: UserRole): UserRole {
    if RoleCol in m && m[RoleCol].RoleCell? then m[RoleCol].role else prev
  }

  /** The update of an existing row; `updatedAt` moves to now only when a column actually changes. */
  function UpdateRow(u: UserRow, upd: map<UserColumn, Cell>, now: int): UserRow {
    var v := u.(name := TextOf(upd, NameCol, u.name), email := TextOf(upd, EmailCol, u.email),
      loginMethod := TextOf(upd, LoginMethodCol, u.loginMethod),
      role := RoleOf(upd, u.role), lastSignedIn := TimeOf(upd, u.lastSignedIn));
    if v == u then u else v.(updatedAt := now)
  }

  /** The inserted row: columns not in the values take their defaults (null, role user, now). */
  function NewUserRow(openId: string, values: map<UserColumn, Cell>, id: nat, now: int): UserRow {
    UserRow(id, openId, TextOf(values, NameCol, None), TextOf(values, EmailCol, None),
      TextOf(values, LoginMethodCol, None), RoleOf(values, RoleUser), now, now, TimeOf(values, now))
  }

  /** `INSERT ... ON DUPLICATE KEY UPDATE` keyed by the unique `openId`. */
  function ApplyUpsert(users: seq<UserRow>, openId: string, w: UserWrite, now: int): seq<UserRow> {
    var k := FindUser(users, openId);
    if k >= 0 then users[k := UpdateRow(users[k], w.updateSet, now)]
    else users + [NewUserRow(openId, w.values, |users| + 1, now)]
  }

  /** The upsert keeps `openId` unique and leaves exactly one row for the user; it adds at most one row. */
  lemma ApplyUpsertKeepsUnique(users: seq<UserRow>, openId: string, w: UserWrite, now: int)
    requires UniqueOpenIds(users)
    ensures var r := ApplyUpsert(users, openId, w, now);
      && UniqueOpenIds(r)
      && (exists k :: 0 <= k < |r| && r[k].openId == openId)
      && |users| <= |r| <= |users| + 1
      && (forall i :: 0 <= i < |users| && users[i].openId != openId ==> r[i] == users[i])
  {
    var r := ApplyUpsert(users, openId, w, now);
    var k := FindUser(users, openId);
    if k >= 0 {
      assert r[k].openId == openId;
    } else {
      assert r[|users|].openId == openId;
    }
  }

  datatype UpsertError = MissingOpenId | WriteRejected

  // ---- the connection ----

  /** The lazily connected database handle with the tables behind it. */
  class Database {
    var store: Store

    constructor (initial: Store)
      ensures store == initial
    {
      store := initial;
    }

    /** `saveChatMessage`: appends one row, or reports a rejected insert; skipped without a connection. */
    method SaveChatMessage(msg: NewChatMessage, now: int) returns (ok: bool)
      modifies this
      ensures ok == SaveChat(old(store), msg, now).Some?
      ensures store == if ok then SaveChat(old(store), msg, now).value else old(store)
    {
      var r := SaveChat(store, msg, now);
      ok := r.Some?;
      if ok {
        store := r.value;
      }
    }

    /**
     * `upsertUser`: a missing `openId` fails before the store is touched; without a
     * connection nothing happens; otherwise the row is inserted or updated, unless a
     * value does not fit its column, in which case the error is passed on.
     */
    method UpsertUser(user: InsertUser, ownerOpenId: string, now: int) returns (r: Result<(), UpsertError>)
      modifies this
      ensures user.openId == "" ==> r == Failure(MissingOpenId) && store == old(store)
      ensures user.openId != "" && old(store).Offline? ==> r == Success(()) && store == old(store)
      ensures user.openId != "" && old(store).Online? ==>
        var w := UpsertWrite(user, ownerOpenId, now);
        if UserWriteFits(user.openId, w) then
          r == Success(()) && store == Online(old(store).tables.(users := ApplyUpsert(old(store).tables.users, user.openId, w, now)))
        else
          r == Failure(WriteRejected) && store == old(store)
    {
      if user.openId == "" {
        return Failure(MissingOpenId);
      }
      if store.Offline? {
        return Success(());
      }
      var w := BuildUpsert(user, ownerOpenId, now);
      if !UserWriteFits(user.openId, w) {
        return Failure(WriteRejected);
      }
      store := Online(store.tables.(users := ApplyUpsert(store.tables.users, user.openId, w, now)));
      r := Success(());
    }
  }
}
