/**
 * The five tables of the store as records: users, vehicle models, vehicle
 * listings, market prices and chat history. A nullable column is an `Option`;
 * a JSON column holds a nested record or a sequence. Timestamps are integers
 * (seconds), supplied by whoever writes the row.
 */
module Schema {
  import opened Wrappers
  import Text

  /** A field of an insert: left out (the column default applies), explicitly null, or given. */
  datatype Field<T> = Omitted | Null | Given(value: T)

  // ---- users ----

  /** Stored as 'user' and 'admin'. */
  datatype UserRole = RoleUser | RoleAdmin

  datatype UserRow = UserRow(
    id: nat,
    openId: string,
    name: Option<string>,
    email: Option<string>,
    loginMethod: Option<string>,
    role: UserRole,
    createdAt: int,
    updatedAt: int,
    lastSignedIn: int)

  /** The insert shape of a user: only `openId` is required by the type. */
  datatype InsertUser = InsertUser(
    openId: string,
    name: Field<string>,
    email: Field<string>,
    loginMethod: Field<string>,
    role: Option<UserRole>,
    lastSignedIn: Option<int>)

  /** `openId` is a non-null, unique column. */
  predicate UniqueOpenIds(users: seq<UserRow>) {
    forall i, j :: 0 <= i < j < |users| ==> users[i].openId != users[j].openId
  }

  // ---- vehicle_models ----

  datatype Problem = Problem(issue: string, severity: string, description: string)

  datatype FuelEfficiency = FuelEfficiency(cityKmpl: Option<string>, highwayKmpl: Option<string>, hybridKmpl: Option<string>)

  datatype SafetyRating = SafetyRating(
    euroNcap: Option<string>,
    jncap: Option<string>,
    aseanNcap: Option<string>,
    globalNcap: Option<string>,
    notes: Option<string>)

  datatype VehicleModel = VehicleModel(
    id: nat,
    baseModel: string,
    alsoKnownAs: Option<string>,
    reliabilityScore: int,
    commonProblems: Option<seq<Problem>>,
    fuelEfficiency: Option<FuelEfficiency>,
    safetyRating: Option<SafetyRating>,
    maintenanceTips: Option<seq<string>>,
    yearsToAvoid: Option<seq<string>>,
    bestYears: Option<seq<string>>,
    recallInfo: Option<string>,
    createdAt: int,
    updatedAt: int)

  /** The insert shape of a model: `reliabilityScore` may be left out, never null. */
  datatype InsertVehicleModel = InsertVehicleModel(
    baseModel: string,
    alsoKnownAs: Option<string>,
    reliabilityScore: Option<int>,
    commonProblems: Option<seq<Problem>>,
    fuelEfficiency: Option<FuelEfficiency>,
    safetyRating: Option<SafetyRating>,
    maintenanceTips: Option<seq<string>>,
    yearsToAvoid: Option<seq<string>>,
    bestYears: Option<seq<string>>,
    recallInfo: Option<string>)

  const DefaultReliabilityScore := 7
  const BaseModelMaxLength := 100

  /** The row a model insert produces: a missing score becomes 7, everything else is copied. */
  function ModelFromInsert(ins: InsertVehicleModel, id: nat, now: int): (m: VehicleModel)
    ensures m.reliabilityScore == if ins.reliabilityScore.Some? then ins.reliabilityScore.value else 7
    ensures m.baseModel == ins.baseModel && m.commonProblems == ins.commonProblems
    ensures m.yearsToAvoid == ins.yearsToAvoid && m.bestYears == ins.bestYears
    ensures m.id == id && m.createdAt == now && m.updatedAt == now
  {
    VehicleModel(id, ins.baseModel, ins.alsoKnownAs, ins.reliabilityScore.GetOr(DefaultReliabilityScore),
      ins.commonProblems, ins.fuelEfficiency, ins.safetyRating, ins.maintenanceTips,
      ins.yearsToAvoid, ins.bestYears, ins.recallInfo, now, now)
  }

  /** `baseModel` is a unique varchar(100): the join key listings refer to by value. */
  predicate ValidModels(models: seq<VehicleModel>) {
    && (forall i :: 0 <= i < |models| ==> |models[i].baseModel| <= BaseModelMaxLength)
    && (forall i, j :: 0 <= i < j < |models| ==> models[i].baseModel != models[j].baseModel)
  }

  // ---- vehicle_listings ----

  datatype PriceEvaluation = GoodDeal | FairPrice | Overpriced | Unknown

  /** The enum's stored spelling. */
  function EvaluationName(e: PriceEvaluation): string {
    match e
    case GoodDeal => "good_deal"
    case FairPrice => "fair_price"
    case Overpriced => "overpriced"
    case Unknown => "unknown"
  }

  /** The stored spelling names the value: no two values share one. */
  lemma EvaluationNameInjective(a: PriceEvaluation, b: PriceEvaluation)
    ensures EvaluationName(a) == EvaluationName(b) ==> a == b
  {
  }

  datatype Listing = Listing(
    id: nat,
    model: string,
    baseModel: string,
    normalizedModel: Option<string>,
    year: int,
    price: int,
    mileage: Option<int>,
    location: Option<string>,
    source: string,
    priceEvaluation: Option<PriceEvaluation>,
    imageUrl: Option<string>,
    sourceUrl: Option<string>,
    isActive: Option<bool>,
    createdAt: int,
    updatedAt: int)

  /** The insert shape of a listing: year and price are required, the rest optional. */
  datatype InsertListing = InsertListing(
    model: string,
    baseModel: string,
    normalizedModel: Option<string>,
    year: int,
    price: int,
    mileage: Option<int>,
    location: Option<string>,
    source: string,
    priceEvaluation: Field<PriceEvaluation>,
    imageUrl: Option<string>,
    sourceUrl: Option<string>,
    isActive: Field<bool>)

  /** Column default for a nullable column: a left-out field takes the default, null stays null. */
  function WithDefault<T>(f: Field<T>, default: T): (r: Option<T>)
    ensures f.Omitted? ==> r == Some(default)
    ensures f.Null? ==> r == None
    ensures f.Given? ==> r == Some(f.value)
  {
    match f
    case Omitted => Some(default)
    case Null => None
    case Given(v) => Some(v)
  }

  /** The row a listing insert produces: evaluation defaults to unknown, `isActive` to true. */
  function ListingFromInsert(ins: InsertListing, id: nat, now: int): (l: Listing)
    ensures ins.priceEvaluation.Omitted? ==> l.priceEvaluation == Some(Unknown)
    ensures ins.isActive.Omitted? ==> l.isActive == Some(true)
    ensures l.year == ins.year && l.price == ins.price && l.mileage == ins.mileage && l.location == ins.location
  {
    Listing(id, ins.model, ins.baseModel, ins.normalizedModel, ins.year, ins.price, ins.mileage,
      ins.location, ins.source, WithDefault(ins.priceEvaluation, Unknown), ins.imageUrl,
      ins.sourceUrl, WithDefault(ins.isActive, true), now, now)
  }

  /** The store compares `isActive = true`, so a null flag counts as inactive. */
  predicate IsActive(l: Listing) {
    l.isActive == Some(true)
  }

  // ---- market_prices ----

  datatype MarketPrice = MarketPrice(
    id: nat,
    baseModel: string,
    year: int,
    averagePrice: int,
    medianPrice: Option<int>,
    minPrice: Option<int>,
    maxPrice: Option<int>,
    stdDev: Option<int>,
    sampleSize: int,
    priceRangeLow: Option<int>,
    priceRangeHigh: Option<int>,
    updatedAt: int)

  datatype InsertMarketPrice = InsertMarketPrice(
    baseModel: string,
    year: int,
    averagePrice: int,
    medianPrice: Option<int>,
    minPrice: Option<int>,
    maxPrice: Option<int>,
    stdDev: Option<int>,
    sampleSize: Option<int>,
    priceRangeLow: Option<int>,
    priceRangeHigh: Option<int>)

  /** The row a market-price insert produces: the sample size defaults to 0. */
  function MarketPriceFromInsert(ins: InsertMarketPrice, id: nat, now: int): (p: MarketPrice)
    ensures p.sampleSize == if ins.sampleSize.Some? then ins.sampleSize.value else 0
    ensures p.averagePrice == ins.averagePrice && p.baseModel == ins.baseModel && p.year == ins.year
    ensures p.minPrice == ins.minPrice && p.maxPrice == ins.maxPrice && p.medianPrice == ins.medianPrice
  {
    MarketPrice(id, ins.baseModel, ins.year, ins.averagePrice, ins.medianPrice, ins.minPrice,
      ins.maxPrice, ins.stdDev, ins.sampleSize.GetOr(0), ins.priceRangeLow, ins.priceRangeHigh, now)
  }

  // ---- chat_history ----

  datatype ChatRole = User | Assistant

  datatype BudgetRange = BudgetRange(min: int, max: int)

  datatype ChatMetadata = ChatMetadata(
    vehiclesQueried: Option<seq<string>>,
    budgetRange: Option<BudgetRange>,
    intent: Option<string>)

  datatype ChatRow = ChatRow(
    id: nat,
    sessionId: string,
    userId: Option<int>,
    role: ChatRole,
    content: string,
    metadata: Option<ChatMetadata>,
    createdAt: int)

  /** The insert shape of a chat turn: id and timestamp come from the store. */
  datatype NewChatMessage = NewChatMessage(
    sessionId: string,
    userId: Option<int>,
    role: ChatRole,
    content: string,
    metadata: Option<ChatMetadata>)

  const SessionIdMaxLength := 64
  /** A MySQL TEXT column holds at most 65,535 bytes. */
  const TextMaxBytes := 65535

  /** Whether the store accepts the row: `sessionId` is a varchar(64), `content` a TEXT column. */
  predicate ChatRowFits(m: NewChatMessage) {
    |m.sessionId| <= SessionIdMaxLength && Text.Utf8Length(m.content) <= TextMaxBytes
  }

  /** Every stored chat row satisfies the column limits. */
  predicate ValidChats(chats: seq<ChatRow>) {
    forall i :: 0 <= i < |chats| ==>
      |chats[i].sessionId| <= SessionIdMaxLength && Text.Utf8Length(chats[i].content) <= TextMaxBytes
  }
}
