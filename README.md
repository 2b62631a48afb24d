# Crypto, weather and news dashboard — a Dafny model of its state logic

This project models the state logic of a Next.js dashboard that has three
panels: cryptocurrency prices, weather for several cities, and crypto news.
All of that logic lives in three Redux slices and two page components. The
model covers the following:

- the crypto slice's retry policy (`fetchWithRetry`) and request queue
  (`RequestQueue`);
- how the crypto and weather slices plan which symbols or cities to request
  (`fetchCryptoData`, `fetchWeatherData`), and the records they build from the
  upstream answers;
- the reducers of all three slices;
- the crypto page's live-price feed: which coins it subscribes to, the
  connect / close / error reconnect state machine, and the timed drain of
  buffered socket messages;
- the display helpers of the weather page.

Upstream answers, clock readings, local storage and browser state
(`navigator.onLine`, `readyState`) are all parameters. Each event handler and
each reducer is one atomic step.

Modules:

| module | file | models |
|---|---|---|
| `Common` | common.dfy | `Option`, ASCII case conversion, `[...new Set(xs)]`, pushing missing items, `filter`, `join`/`split`, decimal text |
| `Retry` | retry.dfy | `fetchWithRetry` |
| `RequestQueues` | request_queue.dfy | `class RequestQueue` |
| `Keyed` | keyed.dfy | `findIndex`, the replace-or-push merge, the favorites toggle, the per-key `map` (shared by both slices) |
| `CryptoSlice` | crypto_slice.dfy | redux/slices/cryptoSlice.js from line 115 on |
| `CryptoFeed` | crypto_feed.dfy | the live feed of components/CryptoDetails.jsx |
| `WeatherSlice` | weather_slice.dfy | redux/slices/weatherSlice.js |
| `WeatherView` | weather_view.dfy | the helpers of components/WeatherDetails.jsx; `TimeSinceRefresh` also stands for the identical helper in components/CryptoDetails.jsx:431-442 |
| `NewsSlice` | news_slice.dfy | redux/slices/newsSlice.js |

The code's own behaviour is modelled, and in a few places it differs from
what its comments or names suggest:

- `RequestQueue.running` is never incremented: it starts at 0 and is only
  decremented (cryptoSlice.js:94, 107). The guard `running >= concurrency`
  therefore never holds for a positive `concurrency`, and nothing caps the
  number of tasks in flight. The model keeps the invariant `running <= 0`
  and proves no cap. Spacing holds for a whole `process()` call. Two calls
  that interleave both read `lastRequestTime` before either of them waits,
  so they start their tasks at the same moment
  (`RequestQueues.InterleavedStarts`).
- In the default branch of both target lists, favorites are pushed into the
  module-level `defaultCoins` / `defaultCities` array itself. Every favorite
  seen once therefore stays requested on every later plain load. The
  planner classes `CoinTargets` and `CityTargets` hold that array as a
  field.
- A deferred `connectWebSocket` waits a full 30000 ms, not the rest of the
  spacing. `lastReconnectAttempt` is not updated, and the `online` handler
  goes through the same gate (CryptoDetails.jsx:132-143, 358-361).
- `geoRes.data.length === 0` (weatherSlice.js:66) never holds for the
  single object that the `weather?q=` endpoint returns. The model keeps the
  branch, and `WeatherSlice.FetchCityNotFound` shows it is taken only for a
  length of 0. The `rejectWithValue` call at weatherSlice.js:121 has no
  effect.
- A weather failure without a message gives the text
  "Failed to update: undefined" for a city already shown. For a new city it
  gives an `error` that is `undefined`, so that record does not count as
  failed.
- The weather search compares with the defaults case-sensitively. Searching
  "london" requests both "london" and "London"
  (`WeatherSlice.SearchIsCaseSensitive`).
- `fetchCryptoNews` rethrows instead of calling `rejectWithValue`, so the
  rejected payload, and with it the stored news `error`, is `undefined`.
- The search reorder `sort((a, b) => a.symbol === S ? -1 : 1)` is not a
  consistent comparator. It is modelled as a stable partition: the records
  with the searched symbol first, then the rest, each group in its order.
  This is what V8's sort produces when at most one record carries the
  symbol.

## Model

| member | source | states |
|---|---|---|
| `Retry.RetryShape` | redux/slices/cryptoSlice.js:35-62 | With w waits the result is attempt w's outcome. Every earlier attempt failed with 429 or 503, and wait k is `initialDelay * 2^k`. The run stops at a success, at any other failure, or after `retries` waits, so the final failure is not followed by a wait |
| `Retry.RetryFromShape` | redux/slices/cryptoSlice.js:38-60 | The same shape for the loop entered at any attempt number; this is the induction behind `RetryShape` |
| `Retry.TransientThenSuccess` | redux/slices/cryptoSlice.js:38-47 | Rate-limited attempts followed by a success return the first success after one wait per failure. With too few retries, the last 429/503 is rethrown |
| `Retry.OtherFailureRethrown` | redux/slices/cryptoSlice.js:42-47 | A failure that is neither 429 nor 503 is rethrown at once, with no wait after it |
| `Retry.DefaultSchedule` | redux/slices/cryptoSlice.js:8-9 | With the defaults (4 retries, 5000 ms), the waits are a prefix of 5000/10000/20000/40000, and none exceeds 40000 |
| `Retry.FetchWithRetry` | redux/slices/cryptoSlice.js:35-62 | The `while` loop returns the final attempt and the waits of `RetryRun` |
| `RequestQueues.RequestQueue.constructor` | redux/slices/cryptoSlice.js:65-71 | Empty queue, `running` 0, `lastRequestTime` 0, the given concurrency and interval |
| `RequestQueues.RequestQueue.Add` | redux/slices/cryptoSlice.js:73-78 | Exactly one entry is appended at the back, and earlier entries keep their order |
| `RequestQueues.RequestQueue.Process` | redux/slices/cryptoSlice.js:80-91 | Nothing is dispatched exactly when `running >= concurrency` or the queue is empty. Otherwise the call wakes at `max(now, lastRequestTime + interval)` |
| `RequestQueues.RequestQueue.Resume` | redux/slices/cryptoSlice.js:93-99 | An emptied queue decrements `running`. Otherwise the head entry is taken and `lastRequestTime` becomes the start time |
| `RequestQueues.RequestQueue.Settle` | redux/slices/cryptoSlice.js:106-108 | `running` is decremented, and the queue and clock are unchanged |
| `RequestQueues.RequestQueue.Dispatch` | redux/slices/cryptoSlice.js:80-99 | An uninterrupted `process()` starts the head entry (FIFO), no earlier than `now` and at least `interval` after the previous start, and `running` only ever decreases |
| `RequestQueues.TwoDispatches` | redux/slices/cryptoSlice.js:113 | With the call site's queue (2, 500), two dispatches start their tasks in FIFO order, at least 500 ms apart |
| `RequestQueues.InterleavedStarts` | redux/slices/cryptoSlice.js:73-99 | After an earlier task started at `start0`, two `add` calls at time `t` whose `process()` calls interleave both wake at `max(t, start0 + 500)` and start their tasks together |
| `Common.DedupSpec` | redux/slices/cryptoSlice.js:137 | `[...new Set(xs)]` has no duplicates, keeps exactly the members of `xs`, and orders them by first occurrence |
| `Common.AppendMissingSpec` | redux/slices/cryptoSlice.js:131-135 | Pushing missing favorites keeps the base list as a prefix, adds every favorite, and adds nothing else |
| `Common.FilterPartition` | components/WeatherDetails.jsx:118-119 | A filter and the filter by its negation hold every element exactly as often as the list does |
| `Common.FilterAppend` | components/WeatherDetails.jsx:118-119 | Filtering distributes over concatenation, so kept elements keep list order |
| `Common.SplitJoin` | components/CryptoDetails.jsx:180-183 | Splitting the comma-joined ids gives the ids back, when none of them contains a comma |
| `Common.ParseNatToString` | components/WeatherDetails.jsx:129-132 | The decimal text of a count reads back as the count |
| `Keyed.FindIndex` | redux/slices/cryptoSlice.js:279-281 | -1 exactly when no item has the key; otherwise the first index with that key |
| `Keyed.UpsertFinds` | redux/slices/cryptoSlice.js:315-322 | After one replace-or-push step, the new item is what its key finds |
| `Keyed.UpsertOther` | redux/slices/cryptoSlice.js:315-322 | A step under another key does not move or change what a key finds |
| `Keyed.UpsertAllKeeps` | redux/slices/cryptoSlice.js:314-323 | The merge keeps every item whose key no payload item has, at its index, and grows the list by at most one item per payload item |
| `Keyed.UpsertAllLastWins` | redux/slices/cryptoSlice.js:314-323 | A payload item with no later item under the same key is what its key finds after the merge |
| `Keyed.UpsertAllMembers` | redux/slices/cryptoSlice.js:314-323 | The merge brings in nothing but the original items and the payload |
| `Keyed.ToggleSpec` | redux/slices/cryptoSlice.js:261-265 | The toggled key is present afterwards exactly when it was absent before. Every copy of a present key is removed, an absent key goes to the back, and other keys keep their membership |
| `Keyed.ToggleTwice` | redux/slices/cryptoSlice.js:261-265 | Adding an absent key and toggling it again restores the list |
| `Keyed.MapWhere` | redux/slices/cryptoSlice.js:267-272 | Items with the key are rewritten, and all others and the length are unchanged |
| `Keyed.MapWhereTwice` | redux/slices/cryptoSlice.js:267-272 | Flipping twice with a key-preserving involution restores the list |
| `CryptoSlice.TargetsSpec` | redux/slices/cryptoSlice.js:125-137 | The target list has no duplicates, contains every base symbol and every favorite and nothing else, and keeps first-occurrence order |
| `CryptoSlice.SearchedRequestedFirst` | redux/slices/cryptoSlice.js:127-128 | A searched coin not among the defaults (compared upper-cased) is requested first, upper-cased |
| `CryptoSlice.RefreshRequestsCurrent` | redux/slices/cryptoSlice.js:125-126 | A refresh requests the current symbols (distinct symbols), in order, ahead of the favorites |
| `CryptoSlice.FormerFavoritesStayRequested` | redux/slices/cryptoSlice.js:125-135 | After a plain load, the module-level defaults hold every favorite of that load, so later loads keep requesting them |
| `CryptoSlice.CoinTargets.Plan` | redux/slices/cryptoSlice.js:125-137 | The planning loop returns `Targets` and, in the default branch, leaves the favorites pushed into the shared defaults |
| `CryptoSlice.ChooseHit` | redux/slices/cryptoSlice.js:154-158 | The first hit whose symbol matches case-insensitively; the first hit when none does |
| `CryptoSlice.FailedCoinSpec` | redux/slices/cryptoSlice.js:211-233 | A coin already in state fails to a stale copy of its first record, with "Failed to update: " + (message, or "API error") and `isFavorite` recomputed. Otherwise it fails to an upper-cased `{symbol, name}` with the message, or "Failed to fetch data" |
| `CryptoSlice.FoundCoinAgrees` | redux/slices/cryptoSlice.js:187-203 | A fetched record carries no error, the chosen id, and `isFavorite` from the favorites |
| `CryptoSlice.AfterDetailSpec` | redux/slices/cryptoSlice.js:162-203 | After the search, the detail request goes to the chosen id and the history request follows it, and an error-free record made both |
| `CryptoSlice.FetchCoinSpec` | redux/slices/cryptoSlice.js:140-235 | At most three requests, in order: search, detail, history of the same id. An error-free record made all three and carries that id, and `isFavorite` always agrees with the favorites |
| `CryptoSlice.FetchCoinNotFound` | redux/slices/cryptoSlice.js:152-210 | An empty or missing search result gives "Cryptocurrency not found" after the search alone |
| `CryptoSlice.FetchCoinFound` | redux/slices/cryptoSlice.js:152-203 | When all three requests answer, the record has the detail's symbol, name, price, 24h change, market cap, volume, supply and max supply, the history's prices and times in order, no error and no stale flag |
| `CryptoSlice.SearchFirstSpec` | redux/slices/cryptoSlice.js:238 | The reorder is a permutation; a record with the searched symbol comes first, and with none the order is unchanged |
| `CryptoSlice.FetchAll` | redux/slices/cryptoSlice.js:140-237 | One pipeline result per target |
| `CryptoSlice.PayloadSpec` | redux/slices/cryptoSlice.js:140-239 | One record per target, every flag agreeing with the favorites, and the searched symbol first when it is present |
| `CryptoSlice.RejectionMessage` | redux/slices/cryptoSlice.js:240-243 | The API's error text when it is non-empty, else the fixed message, which is never empty |
| `CryptoSlice.ToggleKeepsAgreement` | redux/slices/cryptoSlice.js:258-275 | Toggling keeps every `isFavorite` in agreement with the favorites list |
| `CryptoSlice.ToggleFavoriteTwice` | redux/slices/cryptoSlice.js:258-275 | Toggling a symbol twice restores the records, and the list too when the symbol was not a favorite |
| `CryptoSlice.LivePriceSpec` | redux/slices/cryptoSlice.js:276-290 | Only the first record with the symbol changes (`price`, `priceChange24h := priceChangePercent`, `lastUpdated`). The length is kept, and an absent symbol changes nothing |
| `CryptoSlice.LivePriceIdempotent` | redux/slices/cryptoSlice.js:276-290 | Applying the same live price twice equals applying it once |
| `CryptoSlice.MergeKeepsAgreement` | redux/slices/cryptoSlice.js:314-323 | The refresh merge keeps favorites agreement when the payload agrees |
| `CryptoSlice.CryptoStore.constructor` | redux/slices/cryptoSlice.js:250-256 | The initial state, with the stored favorites or none |
| `CryptoSlice.CryptoStore.ToggleFavorite` | redux/slices/cryptoSlice.js:258-275 | The favorites become `Toggle`, the records `FlipWhere`, and the saved copy equals the new list |
| `CryptoSlice.CryptoStore.UpdateLivePrice` | redux/slices/cryptoSlice.js:276-290 | The records become `WithLivePrice`, and nothing else changes |
| `CryptoSlice.CryptoStore.Pending` | redux/slices/cryptoSlice.js:294-301 | `loading` is set only when not `refreshOnly`, and `error` is cleared |
| `CryptoSlice.CryptoStore.Fulfilled` | redux/slices/cryptoSlice.js:302-325 | The list is replaced, or under `refreshOnly` merged by symbol in place or appended; `lastRefresh` is set |
| `CryptoSlice.CryptoStore.Rejected` | redux/slices/cryptoSlice.js:326-329 | `loading` is cleared, the payload is stored, and the records are unchanged |
| `CryptoFeed.SymbolFromAsset` | components/CryptoDetails.jsx:263-274 | The seven listed ids map to their symbols, and any other asset is upper-cased |
| `CryptoFeed.SymbolFromAssetIsUpper` | components/CryptoDetails.jsx:263-274 | Every symbol it returns is upper case |
| `CryptoFeed.OutranksOrder` | components/CryptoDetails.jsx:158-170 | The comparator is asymmetric and its negation is transitive |
| `CryptoFeed.SortByPrioritySpec` | components/CryptoDetails.jsx:156-170 | The sort is a permutation and is sorted by the comparator |
| `CryptoFeed.InsertPerm` | components/CryptoDetails.jsx:156-170 | One insertion step adds exactly the inserted coin |
| `CryptoFeed.InsertSorted` | components/CryptoDetails.jsx:156-170 | One insertion step keeps a list in comparator order |
| `CryptoFeed.SortedMeansPriority` | components/CryptoDetails.jsx:158-170 | In a sorted list, favorites precede non-favorites, then five-coin defaults precede others, then market cap descends |
| `CryptoFeed.PrioritySubsetSpec` | components/CryptoDetails.jsx:156-171 | At most 5 coins, all without error, all from the data, in priority order |
| `CryptoFeed.PriorityCutoff` | components/CryptoDetails.jsx:156-171 | The subset is a prefix of all error-free coins ranked, and no coin left out outranks a coin kept |
| `CryptoFeed.AssetsSpec` | components/CryptoDetails.jsx:180-189 | The subscription text is empty exactly when no coin has an id, and splitting it gives the lower-cased ids back |
| `CryptoFeed.AssetIdsEmpty` | components/CryptoDetails.jsx:180-183 | No asset id is produced exactly when every coin lacks an id |
| `CryptoFeed.PercentSpec` | components/CryptoDetails.jsx:84-86 | `percent * old == change * 100` for a non-zero old price, and 0 when the old price is 0 |
| `CryptoFeed.EntryUpdateWhen` | components/CryptoDetails.jsx:75-81 | An update is made exactly when the price is non-zero and a tracked coin matches by id or case-insensitive symbol |
| `CryptoFeed.EntryUpdateValue` | components/CryptoDetails.jsx:81-92 | The update is for the first matching coin's symbol, with the change and percentage taken against that coin's snapshot price |
| `CryptoFeed.MessageUpdatesAppend` | components/CryptoDetails.jsx:67-98 | The per-message updates of two batches concatenate |
| `CryptoFeed.MalformedSkipped` | components/CryptoDetails.jsx:95-97 | An unparseable message is skipped without affecting the rest of the tick |
| `CryptoFeed.MessageUpdatesSound` | components/CryptoDetails.jsx:67-98 | Every update has a non-zero price and the symbol of a tracked coin |
| `CryptoFeed.BatchUpdatesSpec` | components/CryptoDetails.jsx:65-98 | The updates dictionary holds only sound updates, and later entries for a symbol overwrite earlier ones |
| `CryptoFeed.ApplyUpdatesSpec` | components/CryptoDetails.jsx:105-114 | Dispatching the updates keeps the length and the favorites agreement of the records |
| `CryptoFeed.LiveFeed.constructor` | components/CryptoDetails.jsx:36-42 | Not connecting, no timer, no socket, empty buffer and live updates |
| `CryptoFeed.LiveFeed.Connect` | components/CryptoDetails.jsx:126-196 | A no-op while connecting. Within 30000 ms of the last attempt, a full 30000 ms timer replaces any pending one, and the attempt time is unchanged. Otherwise `now` is recorded, the old socket is closed, and the connect opens a socket for the priority assets with an emptied buffer, or stops when there are no priority coins or no ids |
| `CryptoFeed.LiveFeed.OnOpen` | components/CryptoDetails.jsx:198-206 | `isConnecting` becomes false, and nothing else changes |
| `CryptoFeed.LiveFeed.OnMessage` | components/CryptoDetails.jsx:208-211 | The raw message is appended to the buffer |
| `CryptoFeed.LiveFeed.OnClose` | components/CryptoDetails.jsx:213-230 | `isConnecting` becomes false. When offline no timer is set; otherwise a single 30000 ms timer replaces any pending one |
| `CryptoFeed.LiveFeed.OnError` | components/CryptoDetails.jsx:232-257 | A single 60000 ms timer replaces any pending one. The toast fires exactly when the socket is CLOSED; an OPEN socket is closed, and otherwise the socket is left as it was |
| `CryptoFeed.LiveFeed.FireTimer` | components/CryptoDetails.jsx:138-140 | The timer's `connectWebSocket` goes through the same gate at the firing time |
| `CryptoFeed.LiveFeed.OnOnline` | components/CryptoDetails.jsx:357-361 | The `online` handler is `Connect` at `now`, including the spacing gate |
| `CryptoFeed.LiveFeed.Dispose` | components/CryptoDetails.jsx:329-338 | On unmount, the pending timer is cleared and the socket closed |
| `CryptoFeed.LiveFeed.Tick` | components/CryptoDetails.jsx:57-116 | An empty buffer changes nothing. Otherwise every buffered message is taken, the buffer is emptied, the batch is merged into the live updates, and it is dispatched to the store |
| `CryptoFeed.LiveFeed.Publish` | components/CryptoDetails.jsx:101-115 | A batch is merged into the live updates and dispatched to the store; an empty batch changes neither, and the connection state is untouched |
| `CryptoFeed.CollectUpdates` | components/CryptoDetails.jsx:65-98 | The nested drain loops compute `BatchUpdates` |
| `CryptoFeed.CollectEntries` | components/CryptoDetails.jsx:71-93 | The entries of one message are assigned into `updates` in order, extending what earlier messages built |
| `CryptoFeed.DispatchUpdates` | components/CryptoDetails.jsx:105-114 | Dispatching each update applies `ApplyUpdates` to the store's records, and nothing else changes |
| `CryptoFeed.DeferredWaitsFull` | components/CryptoDetails.jsx:132-143 | A connect 1000 ms after an attempt is deferred to a full 30000 ms later, not to the remaining 29000 |
| `CryptoFeed.ErrorThenClose` | components/CryptoDetails.jsx:213-257 | An error sets a 60000 ms timer; the close that follows replaces it with a 30000 ms one when online and keeps it when offline |
| `WeatherSlice.CityTargetsSpec` | redux/slices/weatherSlice.js:38-56 | The base list stays as a prefix (a refresh requests the current names), a searched city not in the defaults comes first, every favorite is present, and nothing else is requested |
| `WeatherSlice.SearchIsCaseSensitive` | redux/slices/weatherSlice.js:43-45 | Searching "london" requests both "london" and "London" |
| `WeatherSlice.FormerFavoritesStayRequested` | redux/slices/weatherSlice.js:48-56 | Favorites pushed in a plain load stay in the shared defaults for every later load |
| `WeatherSlice.CityTargets.Plan` | redux/slices/weatherSlice.js:38-56 | The planning loop returns `Targets` and, in the default branch, pushes the favorites into the shared defaults |
| `WeatherSlice.DatePart` | redux/slices/weatherSlice.js:92 | The text before the first space: a prefix of `dt_txt` with no space in it |
| `WeatherSlice.DailyShape` | redux/slices/weatherSlice.js:87-104 | At most 5 temperatures and as many labels, taken in list order |
| `WeatherSlice.DailyValues` | redux/slices/weatherSlice.js:95-100 | Each kept temperature and label come from the same taken item |
| `WeatherSlice.DailyLast` | redux/slices/weatherSlice.js:90-102 | `lastDate` is the date of the last reading taken, or "" before any, and the first reading's date is not "" |
| `WeatherSlice.DailyDates` | redux/slices/weatherSlice.js:90-102 | Consecutive readings differ in date part |
| `WeatherSlice.DailySkips` | redux/slices/weatherSlice.js:95 | A skipped item came when five readings were kept or shares the last date, and it changes nothing |
| `WeatherSlice.ExtractForecast` | redux/slices/weatherSlice.js:87-104 | The `forEach` loop computes `DailyOf` |
| `WeatherSlice.FailedCitySpec` | redux/slices/weatherSlice.js:120-138 | A shown city fails to a stale copy of its first record with "Failed to update: " + message ("undefined" when missing). A new city fails to a bare record whose error is the message itself, so it counts as failed only for a non-empty message |
| `WeatherSlice.AfterLookupSpec` | redux/slices/weatherSlice.js:74-119 | The current and forecast requests use the looked-up coordinates, and a fresh forecast implies both were made |
| `WeatherSlice.FetchCitySpec` | redux/slices/weatherSlice.js:59-139 | The record is filed under the city's name with `isFavorite` from the favorites. The lookup comes first, then the two requests at its coordinates |
| `WeatherSlice.FetchCityNotFound` | redux/slices/weatherSlice.js:66-72 | A lookup of length 0 gives "City not found" after one request; a lookup without a length goes on |
| `WeatherSlice.FetchCityFound` | redux/slices/weatherSlice.js:106-119 | When all three requests answer, the record has no error and is not stale, and it holds the lookup's name, the current temperature and the extracted forecast (at most 5 readings) |
| `WeatherSlice.WeatherPayloadSpec` | redux/slices/weatherSlice.js:59-143 | One record per requested city, named after it, with every flag agreeing with the favorites |
| `WeatherSlice.ToggleSpec` | redux/slices/weatherSlice.js:160-180 | Toggling keeps favorites agreement, and toggling twice restores the records (and the list for a new name) |
| `WeatherSlice.MergeSpec` | redux/slices/weatherSlice.js:203-211 | The refresh merge keeps favorites agreement and leaves every city the payload does not name in place |
| `WeatherSlice.WeatherStore.constructor` | redux/slices/weatherSlice.js:152-158 | The initial state, with the stored favorites or none |
| `WeatherSlice.WeatherStore.ToggleFavorite` | redux/slices/weatherSlice.js:160-180 | The favorites become `Toggle`, the records `FlipWhere`, and the saved copy equals the new list |
| `WeatherSlice.WeatherStore.Pending` | redux/slices/weatherSlice.js:184-191 | `loading` is set only when not `refreshOnly`, and `error` is cleared |
| `WeatherSlice.WeatherStore.Fulfilled` | redux/slices/weatherSlice.js:192-213 | The list is replaced, or under `refreshOnly` merged by name in place or appended; `lastRefresh` is set |
| `WeatherSlice.WeatherStore.Rejected` | redux/slices/weatherSlice.js:214-217 | `loading` is cleared, the payload is stored, and the records are unchanged |
| `WeatherView.ElapsedSeconds` | components/WeatherDetails.jsx:127 | The whole seconds elapsed, rounded down, also for a negative difference |
| `WeatherView.TimeSinceSpec` | components/WeatherDetails.jsx:122-133 | The count is the elapsed seconds rounded down to the unit. Seconds are used below 60 s, minutes below 3600 s, and hours from then on |
| `WeatherView.TimeSinceRefreshText` | components/WeatherDetails.jsx:122-133 | "Never" for an unset refresh time; otherwise the count's numeral, which reads back as the count, then the unit and "ago" |
| `WeatherView.WeatherSplit` | components/WeatherDetails.jsx:118-119 | Favorites and others hold every record exactly once, and each keeps `weatherData` order |
| `WeatherView.FailedCitiesSpec` | components/WeatherDetails.jsx:32-34 | The names of exactly the errored records, in payload order; the list is empty exactly when no record failed |
| `WeatherView.RefreshWithoutFailures` | components/WeatherDetails.jsx:32-44 | A refresh in which every city answered reports no failures |
| `WeatherView.Trim` | components/WeatherDetails.jsx:72-76 | The text between leading and trailing white space, with only white space cut off |
| `WeatherView.TrimIdempotent` | components/WeatherDetails.jsx:72-76 | Trimming twice equals trimming once |
| `WeatherView.SearchMatch` | components/WeatherDetails.jsx:75-77 | The first record whose lower-cased name equals the lower-cased trimmed input, or none when no record's does |
| `WeatherView.DisplayName` | components/WeatherDetails.jsx:86 | `displayName` when present and non-empty, else `name` |
| `WeatherView.SearchConfirmsNewCity` | components/WeatherDetails.jsx:73-88 | A new city whose three requests answer is confirmed under the looked-up name, or under the search text when there is none |
| `WeatherView.SearchReportsFailedLookup` | components/WeatherDetails.jsx:73-82 | A new city whose lookup finds nothing gets the "City not found" toast |
| `NewsSlice.CacheRoundTrip` | redux/slices/newsSlice.js:3-23 | No window, no entry and an unreadable entry all read as no articles, and what is saved reads back as saved |
| `NewsSlice.FetchNews` | redux/slices/newsSlice.js:33-50 | Succeeds exactly for an ok response that has `results`, returning them |
| `NewsSlice.FetchNewsFailures` | redux/slices/newsSlice.js:33-46 | A failed status is reported with its number and text, and a body without results with its own message |
| `NewsSlice.NewsStore.constructor` | redux/slices/newsSlice.js:60-66 | No articles, not loading, no error, no selection, headlines view |
| `NewsSlice.NewsStore.SelectArticle` | redux/slices/newsSlice.js:68-71 | The article is stored and the view becomes the full article |
| `NewsSlice.NewsStore.BackToHeadlines` | redux/slices/newsSlice.js:72-74 | The view becomes headlines, and the selection is kept |
| `NewsSlice.NewsStore.Pending` | redux/slices/newsSlice.js:78-81 | `loading` is set, and `error` is cleared |
| `NewsSlice.NewsStore.Fulfilled` | redux/slices/newsSlice.js:82-86 | `loading` and `error` are cleared, and the articles become the payload's or `[]` |
| `NewsSlice.NewsStore.Rejected` | redux/slices/newsSlice.js:87-94 | `loading` is cleared and the payload stored. The cached list replaces the articles only when it is non-empty |
| `NewsSlice.NewsStore.FetchCryptoNews` | redux/slices/newsSlice.js:25-56 | A success caches and shows the results. A failure leaves the cache, falls back to a non-empty cached list, and stores an undefined error |
| `NewsSlice.ArticleNavigation` | redux/slices/newsSlice.js:68-74 | Select then back keeps the article selected, and selecting another replaces it |
| `NewsSlice.CachedFallback` | redux/slices/newsSlice.js:87-94 | After a successful fetch, a failing one still shows its articles, and the error is empty |
| `NewsSlice.StartupFromCache` | redux/slices/newsSlice.js:87-94 | A first fetch that fails shows what an earlier session cached |

## Left out

- CryptoFeed.LiveFeed.OnError: models the error of the socket in use. An `onerror` raised by a socket that an earlier connect already replaced (and closed) is not modelled; its own `readyState` is then not OPEN, so it would close nothing.
- Network I/O (`axios.get`, `fetch`, WebSocket construction, URL building). Each answer is a parameter: a function from attempt number to outcome for `fetchWithRetry`, and one answer per request elsewhere.
- Timers and real concurrency. `setTimeout`, `setInterval`, awaited sleeps, `Promise.all` interleaving and asynchronous socket events are not modelled. The clock is an integer parameter, each handler is one atomic method, and a pending timer is its due time (`reconnectAt`). The per-item pipelines are not interleaved, so the queue's spacing across items is not composed with them.
- `RequestQueue` promises. `add` resolving or rejecting the caller's promise is not modelled; the dispatched task is returned instead.
- Local storage. Favorites are given to the store constructors as `Option<seq<string>>`, and the saved copy is a field. The news cache is a `Storage` field, and a parsed entry without an `articles` array is not modelled.
- Parsing and formatting: `JSON.parse` of socket messages (a message is `Malformed` or already-parsed entries), `parseFloat` (prices are `real`; `NaN` is not modelled, and a missing market cap ranks as 0), `toLocaleDateString` and `toISOString` (labels and timestamps stay numbers in milliseconds).
- Case conversion and `trim` are ASCII-only, and only space, tab, newline and carriage return count as white space.
- Object-key details of `updates` and `mapping`: keys that look like integers, which JavaScript orders first, and `Object.prototype` names.
- React hook semantics. Stale `useCallback` closures over `isConnecting`, `socket` and `cryptoData` are modelled as plain fields read at call time.
- Toasts and rendering: the cards, charts, the news components (components/NewsHeadlines.jsx, components/FullArticleView.jsx, components/NewsDetails.jsx), components/ui/toast.jsx and redux/store.js. Toast choices appear only where they decide a branch (`OnError`, `SearchToastOf`). The favorites-toggle toast and the refresh toasts of the crypto page are not modelled.
- The crypto page's `refreshData` and its delayed reconnects (CryptoDetails.jsx:277-314, 342-354) are not modelled beyond `Connect`, which they call.
- CryptoSlice.SearchFirst: modelled as a stable partition, which is exact for at most one record carrying the searched symbol. For several such records the order V8's sort gives is not modelled.
- RequestQueues.RequestQueue.Process: an awaited `process()` whose wait another call interleaves is modelled by the caller choosing the order of `Process` and `Resume` steps. No scheduler is modelled.
