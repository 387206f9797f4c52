# Riyasaviya used-car marketplace — a Dafny model of its core

Riyasaviya is a Sri Lankan used-car marketplace. It lists scraped vehicle
adverts with a price rating (good deal, fair price, overpriced), keeps a
reliability record per car model, and answers buyers through a chat mechanic,
"Baas Unnehe". The mechanic replies in Sinhala with a language model, grounded
in the store's models, good deals and the listings within a budget the buyer
mentions.

This project models the following parts of the system in Dafny:

- **Records** (`Schema`): users, vehicle models, listings, market prices and
  chat rows. The model keeps each column's default (reliability 7, rating
  "unknown", active, sample size 0) and the column limits that make a write
  fail.
- **Store queries** (`Store`):
  - the filtered, newest-first, paged listing search;
  - listings within a budget with an optional reliability floor;
  - good deals;
  - chat history and the per-session summaries;
  - the dashboard counts;
  - the user upsert. `Store.Database` holds the store and changes it in place.
- **Chat turn** (`Budget`, `ChatContext`, `Router`):
  - input validation and session choice;
  - saving the user's turn;
  - the budget phrase extractor, modelling the regular expression
    `(\d+)\s*(laksha|lakh|lac|million|m)` with the `i` flag;
  - the knowledge-base text and the system prompt;
  - the message list sent to the model;
  - the reply or the apology, and saving the assistant's turn with its budget
    metadata;
  - every error path.

  `Router.ChatService` also serves the history, newest last, and the budget
  picks with their model's reliability.
- **Pages and components:**
  - the chat widget (`ChatWidget.ChatBot`);
  - the search form (`SearchFilterForm.SearchForm`);
  - the vehicles page with its URL filters, paging and page strip
    (`VehiclesPage.Vehicles`);
  - a listing card's texts (`VehicleCard`);
  - the model page's reliability bar, severity colours, price table and
    years-to-avoid block (`ModelDetail`).

Three kinds of input are parameters of the model rather than computed:

- the database is a value, either `Offline` or `Online` with its tables;
- the language model is a function from the message list to a reply;
- fresh ids (`nanoid`) and clock readings are arguments.

JavaScript semantics the model keeps:

- truthiness: `""`, `0` and missing values count as unset;
- `||` defaults;
- `String.prototype.trim` with JavaScript's white space;
- `length` counted in UTF-16 code units;
- `toFixed`, taken as exact decimal rounding with halves going up;
- `find`, which takes the first match, against a `Map` built from pairs, which
  keeps the last match;
- `URLSearchParams.get`, which takes the first pair with the name;
- stable `sort`.

An SQL `ORDER BY` over rows with equal keys is taken in store order, by a stable
sort.

The stored `budgetRange.max` is always the digits × 100,000. It is 10 times
below the searched ceiling when the unit is "million" or "m". The model keeps
this as written: `Router.AssistantMetadata` records `Budget.StoredMax` of the match,
`Budget.StoredMax` is the number times 100,000, and `Budget.StoredMaxVersusCeiling`
states its relation to the ceiling.

## Model

| member | source | states |
|---|---|---|
| Schema.ModelFromInsert | drizzle/schema.ts:24-51 | a new model row keeps the given name, problems and years, and has reliability 7 when none is given |
| Schema.EvaluationNameInjective | drizzle/schema.ts:70 | the four rating names are distinct, so the stored name tells the rating |
| Schema.WithDefault | drizzle/schema.ts:70-73 | an omitted column takes its default, an explicit null stays null, a given value is kept |
| Schema.ListingFromInsert | drizzle/schema.ts:60-75 | a new listing is rated "unknown" and active unless told otherwise; year, price, mileage and location are kept |
| Schema.MarketPriceFromInsert | drizzle/schema.ts:84-96 | a new market-price row has sample size 0 unless given, and keeps the prices given |
| Text.TrimShape | client/src/components/ChatBot.tsx:40-42 | the trimmed text is a slice of the input that neither starts nor ends with white space |
| Text.TrimEmptyIff | client/src/components/ChatBot.tsx:40 | trimming gives "" exactly when every character is white space |
| Text.Utf16Length | server/routers.ts:110 | the length the 1..1000 bound counts lies between the character count and twice it |
| Text.Utf8WithinUtf16 | drizzle/schema.ts:110 | a text takes at most three UTF-8 bytes per UTF-16 unit |
| Text.ToFixedReadsBack | server/routers.ts:152 | a fixed-point rendering is a sign, digits, a dot and exactly the requested decimals, reading back as the value rounded to the nearest step |
| Seqs.ReversedCopy | server/routers.ts:221 | the result is the input reversed |
| Seqs.ReverseInPlace | server/routers.ts:221 | the array afterwards is the old contents reversed |
| Budget.ExtractIsLeftmost | server/routers.ts:131 | the extractor finds no match exactly when no position matches; a match is the leftmost one |
| Budget.MatchShape | server/routers.ts:131 | a match is a maximal digit run, optional white space, then a unit word in any letter case |
| Budget.ExtractTakesWholeRun | server/routers.ts:131 | the matched digits are a whole run: no digit just before or just after |
| Budget.UnitFamilies | server/routers.ts:135-136 | the unit contains an "m" exactly for "million" and "m" |
| Budget.Ceiling | server/routers.ts:134-138 | the budget searched is the amount times a million for million units, times 100,000 for lakh units |
| Budget.StoredMaxVersusCeiling | server/routers.ts:200 | the stored maximum equals the searched ceiling for lakh units and is a tenth of it for million units |
| Budget.ExampleLakhs | server/routers.ts:131-139 | "40 lakhs" matches "40" with unit lakh; the ceiling is 4,000,000 |
| Budget.ExampleMillion | server/routers.ts:131-139 | "I have 2 million" matches at 7 with unit million; the ceiling is 2,000,000 |
| Budget.ExampleModelYear | server/routers.ts:131-139 | "2018 model" matches "2018" with the unit "m" of "model"; the ceiling is 2,018,000,000 |
| Budget.ExampleUnitFirst | server/routers.ts:173 | "Laksha 40ta …", with the unit before the number, has no match |
| ChatContext.ProblemsText | server/routers.ts:146 | the first two problems' issues joined by ", ", or "None major" when there are none or the text is empty |
| ChatContext.BestYearsText | server/routers.ts:147 | the best years joined, or "All years" when missing or joining to "" |
| ChatContext.AvoidYearsText | server/routers.ts:148 | the years to avoid joined when the list is non-empty, otherwise "None" |
| ChatContext.FallbacksDiffer | server/routers.ts:147-148 | a list holding only "" shows "All years" for best years but "" for years to avoid |
| ChatContext.CityFuelText | server/routers.ts:149 | the city figure when set and non-empty, otherwise "N/A" |
| ChatContext.EvaluationText | server/routers.ts:156 | a missing rating shows as "undefined", a present one with its first "_" replaced by a space |
| ChatContext.ShownEvaluation | server/routers.ts:156 | a two-word rating name shows with a space and no "_" left |
| ChatContext.BuildSections | server/routers.ts:143-157 | one block per model, one line per good deal, and a budget section exactly when budget listings exist, holding the first five |
| ChatContext.RenderShape | server/routers.ts:143-157 | the context is the models and deals text, followed by the budget section only when there is one |
| Router.SessionFor | server/routers.ts:114 | a non-empty given session is kept; otherwise the fresh id is used |
| Router.SystemPrompt | server/routers.ts:159-179 | the system prompt is the persona's introduction, then the context verbatim, then the guidelines |
| Router.AssistantMetadata | server/routers.ts:200 | budget metadata is attached exactly when the message has a budget match; it is then the range from 0 to the stored maximum of that match |
| Budget.StoredMax | server/routers.ts:200 | the stored maximum is the captured number times 100,000: the searched ceiling for lakh units, a tenth of it for million units |
| Router.MillionMessageRecordsTenth | server/routers.ts:200 | "I have 2 million" is searched up to 2,000,000 but its reply row records a budget range from 0 to 200,000 |
| Router.FramingShape | server/routers.ts:181-188 | the system message comes first, then one message per turn in the turns' order, then the current message |
| Router.PromptWindow | server/routers.ts:124-188 | the prompt is the system message over the knowledge base, then one message per history row, then the current message; the rows are the session's ten newest (all when fewer), in ascending time order |
| Router.AssistantSaveFailureKeepsUserTurn | server/routers.ts:190-213 | when the model answers but the reply row does not fit its column, the turn fails as unavailable and only the user's row is stored |
| Router.InvalidInputWritesNothing | server/routers.ts:109-112 | a message outside 1..1000 UTF-16 units is refused and nothing is written |
| Router.SuccessfulTurn | server/routers.ts:113-206 | a successful turn had valid input, answers in the chosen session, and appends exactly the user row then the assistant row with its metadata |
| Router.SavedThenAnswered | server/routers.ts:117-201 | when both saves succeed, the store gains the user row and then the assistant row with the reply's text and metadata |
| Router.AnswerAppends | server/routers.ts:190-206 | a successful answer appends exactly one assistant row and returns its text |
| Router.ReplyFromModel | server/routers.ts:191-193 | the reply is the model's text, or the fixed apology when the model gives no text |
| Router.ModelFailureKeepsUserTurn | server/routers.ts:207-213 | when the model call fails the turn fails as unavailable, yet the user's row stays saved |
| Router.OverlongSessionFails | server/routers.ts:117-121 | a session id longer than 64 characters makes the first save fail, and nothing is written |
| Router.CurrentMessageSentTwice | server/routers.ts:117-124 | the saved user turn is read back in the history, so the current message reaches the model twice in a row |
| Router.ModelLookup | server/routers.ts:85 | the model found by name is the last one with that name, as a `Map` built from pairs keeps, and none exactly when no model has it |
| Router.LookupsAgree | server/db.ts:194 | the budget query's score map and the router's model map agree on every name |
| Router.ShownScore | server/routers.ts:89 | the score shown is the model's score, or 7 when no model matches or its score is 0; never 0 |
| Router.ChatService.constructor | server/routers.ts:106 | the service works on the given database |
| Router.ChatService.SendMessage | server/routers.ts:108-214 | the outcome and the new store are those of the chat turn |
| Router.ChatService.StoreReply | server/routers.ts:190-213 | the outcome and the new store are those of answering with the model's reply |
| Router.ChatService.GetHistory | server/routers.ts:217-222 | the result is the 50-row history reversed: at most 50 of the session's rows, oldest first, and all of them when there are fewer than 50 |
| Router.ChatService.GetByBudget | server/routers.ts:77-92 | one pick per listing within budget, in order, with its model by name and the shown score |
| Store.PushWhen | server/db.ts:136-159 | a condition is appended exactly when its filter is set, keeping the earlier ones |
| Store.RequestedMeansQuery | server/db.ts:134-161 | a row meets every pushed condition exactly when it matches the query |
| Store.BuildConditions | server/db.ts:134-159 | the conditions start with "active" and are exactly the requested ones; meeting all of them means matching |
| Store.SearchListings | server/db.ts:119-178 | the result is the page of matches newest first at the offset, and the count of all matches |
| Store.SearchPageSound | server/db.ts:163-168 | the page holds at most `limit` rows, all stored matches, newest first |
| Store.SearchTotalComplete | server/db.ts:170-177 | every stored match is in the ordered result and counted |
| Store.ScoreLookup | server/db.ts:194-195 | the score found is that of the last model with the name, and none exactly when no model has it |
| Store.ScoreLookupUnique | server/db.ts:194 | with unique names a model's own name finds its own score |
| Store.ListingsByBudget | server/db.ts:180-199 | the active listings at or under the budget that meet a set reliability floor, every one of them, cheapest first |
| Store.ListingsByBudgetPermutation | server/db.ts:184-198 | the result holds each qualifying stored row exactly as often as the store does, only reordered |
| Store.GoodDeals | server/db.ts:201-212 | at most `limit` active good deals, newest first, and all of them when there are fewer |
| Store.GoodDealsNewest | server/db.ts:201-212 | exactly `limit` good deals (all when fewer), and every good deal left out is no newer than every one kept |
| Store.GoodDealsNoRepeats | server/db.ts:201-212 | no stored listing appears among the good deals more often than it is stored |
| Store.SaveChat | server/db.ts:235-239 | an offline store ignores the write; online the row is appended exactly when it fits its columns |
| Store.SaveChatKeepsValid | server/db.ts:235-238 | saving keeps every chat row within its column limits |
| Store.ChatHistory | server/db.ts:241-249 | at most `limit` of the session's rows, newest first, and all of them when there are fewer |
| Store.ChatHistoryNewest | server/db.ts:241-249 | exactly `limit` session rows (all when fewer), and every session row left out is no newer than every row kept |
| Store.ChatHistoryNoRepeats | server/db.ts:241-249 | no stored row appears in the history more often than it is stored |
| Store.HistoryOldestFirst | server/routers.ts:124-188 | the reversed history has that many of the session's rows, in ascending time order |
| Store.HistoryNoRepeats | server/routers.ts:217-222 | the reversed history repeats no stored row |
| Store.HistoryLeavesOutOlder | server/routers.ts:217-222 | every session row the reversed history leaves out is no newer than every row in it |
| Store.SavedRowLeadsHistory | server/db.ts:235-249 | a row saved later than every stored row is the first row of its session's history |
| Store.SessionIds | server/db.ts:261 | one entry per session, each from a stored row, covering every row |
| Store.Latest | server/db.ts:258 | the latest time is that of some row and no row is later |
| Store.ChatSessions | server/db.ts:251-266 | exactly `limit` distinct session summaries (all when fewer), latest first, and every session left out had its last message no later than every session listed |
| Store.ChatSessionsLeaveOutOlder | server/db.ts:251-266 | a session left out had its last message no later than any session listed |
| Store.SummariesDistinct | server/db.ts:255-261 | the summaries are distinct and follow the session order |
| Store.ChatSessionsFaithful | server/db.ts:255-263 | each summary counts its session's rows and carries its latest time |
| Store.SameSessionSameSummary | server/db.ts:261 | one session has one summary |
| Store.SummaryFaithful | server/db.ts:255-261 | a summary's count is its session's row count, at least 1, and its time is the session's latest |
| Store.ChatSessionsComplete | server/db.ts:251-266 | when the sessions fit the limit, every session with a row is listed |
| Store.Stats | server/db.ts:269-284 | no counts offline; online the active listings and the active good deals, never more good deals than listings |
| Store.BuildUpsert | server/db.ts:33-69 | the insert values and the update set built are those the upsert rules give |
| Store.UpsertWriteFaithful | server/db.ts:41-69 | given text fields are written (null included), the role is written when given or for the owner, the insert always has a sign-in time, and the update set is never empty |
| Store.FindUser | server/db.ts:71-73 | the index of the row with the open id, or -1 exactly when there is none |
| Store.ApplyUpsertKeepsUnique | server/db.ts:71-73 | the upsert keeps open ids unique, leaves a row for the id, adds at most one row and leaves other users alone |
| Store.Database.constructor | server/db.ts:6-18 | the database starts with the given store |
| Store.Database.SaveChatMessage | server/db.ts:235-239 | the store changes exactly when the row is saved |
| Store.Database.UpsertUser | server/db.ts:21-78 | a missing open id fails without writing; offline nothing happens; online the upsert is applied when it fits, otherwise it fails without writing |
| ChatWidget.SendRequest | client/src/components/ChatBot.tsx:39-49 | a request goes out exactly when nothing is pending and the box has a non-space character; it carries the trimmed text and the widget's session |
| ChatWidget.SentTextIsTrimmed | client/src/components/ChatBot.tsx:42 | the text sent neither starts nor ends with white space |
| ChatWidget.RouterKeepsWidgetSession | client/src/components/ChatBot.tsx:49 | the router answers in the widget's own session |
| ChatWidget.ChatBot.constructor | client/src/components/ChatBot.tsx:18-21 | closed, no messages, an empty box, nothing pending, and a session id fixed for the widget's life |
| ChatWidget.ChatBot.Mount | client/src/components/ChatBot.tsx:60-71 | an empty conversation gets the greeting; any other is left alone |
| ChatWidget.ChatBot.SetOpen | client/src/components/ChatBot.tsx:78 | opening or closing changes nothing else |
| ChatWidget.ChatBot.SetInput | client/src/components/ChatBot.tsx:147 | typing changes only the box |
| ChatWidget.ChatBot.HandleSend | client/src/components/ChatBot.tsx:39-50 | either nothing changes, or one user message with the trimmed text is appended, the box is cleared and the request is pending |
| ChatWidget.ChatBot.HandleKeyDown | client/src/components/ChatBot.tsx:52-57 | Enter without Shift sends; any other key changes nothing |
| ChatWidget.ChatBot.OnSuccess | client/src/components/ChatBot.tsx:24-31 | exactly one assistant message with the reply is appended |
| ChatWidget.ChatBot.OnError | client/src/components/ChatBot.tsx:24-31 | a failed request leaves the conversation as it was and ends the pending state |
| ChatWidget.Run | client/src/components/ChatBot.tsx:17-71 | over any sequence of events the conversation only grows at its end, and an empty mounted conversation opens with the greeting |
| SearchFilterForm.Updated | client/src/components/SearchFilters.tsx:62-65 | an edit sets its own key to the value, or clears it when the value is falsy, and keeps every other key |
| SearchFilterForm.HasActiveFilters | client/src/components/SearchFilters.tsx:76 | active exactly when some key holds a value |
| SearchFilterForm.UpdatedKeepsNormalized | client/src/components/SearchFilters.tsx:62-65 | edits the controls offer never store a falsy value or the "unknown" rating |
| SearchFilterForm.ToQuery | client/src/pages/Vehicles.tsx:31-35 | the search carries the filters, the page's limit and offset, and no source |
| SearchFilterForm.NoFiltersMatchAllActive | client/src/components/SearchFilters.tsx:76 | with no active filter the search keeps exactly the active listings |
| SearchFilterForm.SearchAppliesEveryKey | client/src/pages/Vehicles.tsx:31-35 | for normalized filters the search keeps exactly the active listings meeting every set key |
| SearchFilterForm.Years | client/src/components/SearchFilters.tsx:55-56 | twenty years counting down from the current one |
| SearchFilterForm.YearsRange | client/src/components/SearchFilters.tsx:56 | a year is offered exactly when it is at most nineteen years before the current one and not after it |
| SearchFilterForm.SearchForm.constructor | client/src/components/SearchFilters.tsx:59-60 | the form starts with the initial filters, collapsed |
| SearchFilterForm.SearchForm.UpdateFilter | client/src/components/SearchFilters.tsx:62-65 | the filters become the edited record |
| SearchFilterForm.SearchForm.ApplyFilters | client/src/components/SearchFilters.tsx:67-69 | the record is reported as it stands |
| SearchFilterForm.SearchForm.ClearFilters | client/src/components/SearchFilters.tsx:71-74 | the record is emptied and the empty record reported; nothing is active after |
| SearchFilterForm.SearchForm.ToggleExpanded | client/src/components/SearchFilters.tsx:105 | only the expanded flag flips |
| VehiclesPage.ParamGet | client/src/pages/Vehicles.tsx:18-20 | the value of the first parameter with the name, none exactly when no parameter has it |
| VehiclesPage.RatingNamed | client/src/pages/Vehicles.tsx:21 | only the three rating names are accepted |
| VehiclesPage.InitialFilters | client/src/pages/Vehicles.tsx:16-26 | the start filters are a non-empty model parameter and a valid rating parameter, nothing else |
| VehiclesPage.TotalPages | client/src/pages/Vehicles.tsx:44 | the fewest pages of twelve that hold every match |
| VehiclesPage.PageShowsItsSlice | client/src/pages/Vehicles.tsx:28-35 | a page shows at most twelve matches, the slice of the search order at its offset, and at least one below the page count |
| VehiclesPage.PageStrip | client/src/pages/Vehicles.tsx:130-140 | the strip has min(5, pages) consecutive numbers |
| VehiclesPage.StripInRange | client/src/pages/Vehicles.tsx:130-140 | for a page in range the strip shows only real pages and includes the current one |
| VehiclesPage.PrevNextStayInRange | client/src/pages/Vehicles.tsx:125-126 | previous and next stay in range and are disabled exactly where they would not move |
| VehiclesPage.FirstModel | client/src/pages/Vehicles.tsx:110 | the model found is the first one with the name, none exactly when no model has it |
| VehiclesPage.CardScore | client/src/pages/Vehicles.tsx:109-111 | the card's score is the first model's score, or 7 when none matches or it is 0 |
| VehiclesPage.UniqueNameIsFirstAndLast | client/src/pages/Vehicles.tsx:110 | with unique model names, the first match equals the router's map lookup |
| VehiclesPage.CardScoreMatchesBudgetPick | client/src/pages/Vehicles.tsx:109-111 | the page's card score equals the score the budget picks carry |
| VehiclesPage.Vehicles.constructor | client/src/pages/Vehicles.tsx:16-28 | the page starts on page 0 with the URL's filters |
| VehiclesPage.Vehicles.HandleFilterChange | client/src/pages/Vehicles.tsx:39-42 | new filters take effect and the page returns to the first |
| VehiclesPage.Vehicles.ClearFromEmptyResult | client/src/pages/Vehicles.tsx:169 | the empty result's button clears the filters and keeps the page |
| VehiclesPage.Vehicles.Previous | client/src/pages/Vehicles.tsx:125 | one page back, never below 0; the filters stay |
| VehiclesPage.Vehicles.Next | client/src/pages/Vehicles.tsx:155 | one page on, never past the last; the filters stay |
| VehiclesPage.Vehicles.GoTo | client/src/pages/Vehicles.tsx:146 | a strip button goes to its page |
| VehicleCard.TierOf | client/src/components/VehicleCard.tsx:26-30 | high from 8, medium for 6 and 7, low below 6 |
| VehicleCard.TierMonotone | client/src/components/VehicleCard.tsx:26-30 | a higher score never falls into a lower tier |
| VehicleCard.ReliabilityColorNamesTier | client/src/components/VehicleCard.tsx:26-30 | two scores share a class exactly when they share a tier |
| VehicleCard.ScoreProp | client/src/components/VehicleCard.tsx:67 | the default 7 applies only when no score is passed |
| VehicleCard.PriceFormChoice | client/src/components/VehicleCard.tsx:32-37 | the millions form is used exactly from a million up |
| VehicleCard.MillionsReadBack | client/src/components/VehicleCard.tsx:33-34 | from a million up the figure has two decimals and reads back as the price in millions, rounded to hundredths |
| VehicleCard.LakhsReadBack | client/src/components/VehicleCard.tsx:36 | below a million the figure has one decimal and reads back as the price in lakhs, rounded to tenths |
| VehicleCard.MileageThousands | client/src/components/VehicleCard.tsx:40-41 | from 1000 km the mileage shows as the nearest thousand, halves going up |
| VehicleCard.MileageExact | client/src/components/VehicleCard.tsx:43 | below 1000 km the mileage shows exactly |
| VehicleCard.MileageExample | client/src/components/VehicleCard.tsx:41 | 48,500 km shows as "49k km" |
| VehicleCard.MileageText | client/src/components/VehicleCard.tsx:133-137 | mileage is shown exactly when present |
| VehicleCard.ZeroMileageShown | client/src/components/VehicleCard.tsx:133 | a mileage of 0 still shows, as "0 km" |
| VehicleCard.CarImage | client/src/components/VehicleCard.tsx:47-55 | the generic picture is used exactly for models outside the four known ones |
| VehicleCard.OwnImagesDistinct | client/src/components/VehicleCard.tsx:48-53 | the four known models have four different pictures |
| VehicleCard.PriceBadge | client/src/components/VehicleCard.tsx:70 | no rating gives no badge |
| VehicleCard.BadgeOnlyForRatings | client/src/components/VehicleCard.tsx:20-24 | a listing has a badge exactly when rated good deal, fair price or overpriced |
| VehicleCard.BadgesDistinct | client/src/components/VehicleCard.tsx:20-24 | the three badges have different styles |
| VehicleCard.FuelText | client/src/components/VehicleCard.tsx:141-145 | the fuel figure is shown exactly when fuel data exists |
| VehicleCard.FuelPreference | client/src/components/VehicleCard.tsx:145 | the city figure first, then the hybrid one, else "N/A"; the highway figure never matters |
| VehicleCard.LocationText | client/src/components/VehicleCard.tsx:104 | the location is shown exactly when it is a non-empty text |
| ModelDetail.TiersAgree | client/src/pages/ModelDetail.tsx:21-25 | the page's colour, its word and the card's class all split scores into the same three tiers |
| ModelDetail.ReliabilityBar | client/src/pages/ModelDetail.tsx:156-172 | ten segments, the bottom `score` lit in the tier's colour and the rest empty |
| ModelDetail.SeverityOf | client/src/pages/ModelDetail.tsx:27-38 | a severity is high, medium or low exactly when it lower-cases to that word |
| ModelDetail.LowerIdempotent | client/src/pages/ModelDetail.tsx:28 | lower-casing twice is lower-casing once |
| ModelDetail.SeverityIgnoresCase | client/src/pages/ModelDetail.tsx:28 | the colour of a severity does not depend on its letter case |
| ModelDetail.SeverityExample | client/src/pages/ModelDetail.tsx:28-30 | "High" is the high severity |
| ModelDetail.SameFigureAsCard | client/src/pages/ModelDetail.tsx:40-45 | the page's price is the card's, with "L" where the card writes " Lakhs" |
| ModelDetail.Bound | client/src/pages/ModelDetail.tsx:303-304 | a missing bound is 0, a present one is itself |
| ModelDetail.MissingBoundIsZero | client/src/pages/ModelDetail.tsx:303-304 | a missing bound shows as a bound of 0 |
| ModelDetail.ModelPrices | client/src/pages/ModelDetail.tsx:63 | the rows are exactly the model's market prices, newest year first |
| ModelDetail.ModelPricesPermutation | client/src/pages/ModelDetail.tsx:294-295 | sorting neither adds nor loses a row |
| ModelDetail.NoAvoidNoteShown | client/src/pages/ModelDetail.tsx:425-445 | the "no years to avoid" note is shown exactly when the list is not |

## Left out

- I/O and asynchrony are not modelled. This covers the database connection,
  network calls, React's asynchronous state updates and re-rendering, the
  scroll effect, and two requests in flight at once. Each operation is one
  atomic step on a value.
- The language model, `nanoid` and the clock are parameters of the model.
- The persona's wording is not modelled. The system prompt is
  `Router.Persona`'s introduction, then the context, then its guidelines.
- The greeting text is not modelled. The chat widget takes it as a
  constructor argument.
- VehicleCard.FormatPrice: `toFixed` is modelled as exact decimal rounding,
  with halves going up. JavaScript rounds the binary double, so a tie such as
  115,000 shows as "1.1" in JavaScript and "1.2" here.
- ModelDetail.FormatPrice and ChatContext.Lakhs follow the same decimal
  rounding, with the same caveat. VehicleCard.FormatMileage uses it too, but
  there it agrees with JavaScript: an integer mileage over 1000 is a tie only
  at an exact half, which is an exact double, and `toFixed` rounds it up.
- Budget.Ceiling: integers are unbounded here. JavaScript's `parseInt` and
  its multiplication work on doubles, which first differ from the exact
  product at runs of twelve digits with a million unit, or thirteen digits
  with a lakh unit.
- SearchFilterForm.Edit: a number box's `parseInt` is taken as already
  parsed. Text with no leading digits becomes no value, which `|| undefined`
  clears, as `NaN` would be.
- Store.MatchesQuery: the location filter is exact substring containment,
  and the `baseModel` and `source` filters are exact equality. MySQL's
  case-insensitive collation is not modelled for any of them, and `%` or `_`
  in the user's text do not act as wildcards.
- Store.ChatHistory: the session id is compared exactly. Under MySQL's
  case-insensitive collation ids differing only in letter case would share a
  history.
- Store.ChatSessions: sessions are grouped by exact id. The collation would
  group ids differing only in letter case together.
- Store.SaveChat: a write fails only through the column limits: a session id
  over 64 characters, or content over 65,535 UTF-8 bytes. Other database
  errors are not modelled.
- Store.Database.UpsertUser: a write fails only through the column limits of
  `users`. When the user exists, the update set replaces the named columns;
  `updatedAt` moves only when a value changes.
- Router.ChatService.GetHistory: rows with equal times keep store order.
  MySQL leaves that order unspecified.
- Store.SearchListings: listings with equal creation times keep store order,
  one of the orders MySQL may return.
- Store.ListingsByBudget: listings with equal prices keep store order, one of
  the orders MySQL may return.
- Store.GoodDeals: good deals with equal creation times keep store order, so
  which of them fill the last places is one of MySQL's possible choices.
- Store.ChatHistory: rows with equal times keep store order, so which of them
  fill the last places is one of MySQL's possible choices.
- Store.ChatSessions: sessions with equal latest times keep the order of
  their first row in the store.
- The remaining read-only queries are not modelled, because they are
  single-key lookups with no logic of their own. These are `getModels`,
  `getModel`, `getListing` with `getListingById`, `getVehicleModelByName`,
  `getMarketPrice`, `getMarketPrices`, `getUserByOpenId`, `getAllListings`
  and the admin `getChatMessages`. The admin query is `Store.ChatHistory`
  with a limit of 100.
- The auth routes, page layout, icons and routing are not modelled. This
  covers `auth.me`, `logout` and the JSX markup; the only view logic modelled
  is the text and classes the components compute.
- `getCarImage` on a name such as "constructor", which JavaScript would read
  from the object's prototype, is not modelled.
- ChatWidget.ChatBot.SetInput: the page disables the box while a request is
  pending, but the model accepts typing and key presses then too. A key press
  then sends nothing, so the conversation is unaffected.
- VehicleCard.PriceBadge: a rating such as "constructor" gives no badge here.
  JavaScript would find a function on the prototype of `priceLabels` and draw
  an empty badge. The rating column's enum never holds such a name.
