/** The crypto slice (redux/slices/cryptoSlice.js): the target list of a fetch,
    the per-coin three-request pipeline and the records it produces, the
    search reorder, and the store with its reducers. Upstream answers are
    inputs: the attempts of each request, which `fetchWithRetry` turns into a
    response or a thrown failure. */
module CryptoSlice {
  import opened Common
  import opened Retry
  import Keyed

  /** The module-level `defaultCoins` array, as first loaded. */
  const DefaultCoins: seq<string> := ["BTC", "ETH", "SOL"]

  const NotFoundMessage := "Cryptocurrency not found"

  datatype PriceHistory = PriceHistory(prices: seq<real>, times: seq<int>)

  /** A coin record of `cryptoData`. Fields a record does not carry in the
      source (the price of a not-found coin, say) are `None`; `stale` absent
      reads as false. Timestamps are milliseconds. */
  datatype Coin = Coin(
    id: Option<string>,
    symbol: string,
    name: string,
    price: Option<real>,
    priceChange24h: Option<real>,
    marketCap: Option<real>,
    volume24h: Option<real>,
    supply: Option<real>,
    maxSupply: Option<real>,
    isFavorite: bool,
    lastUpdated: Option<int>,
    priceHistory: Option<PriceHistory>,
    error: Option<string>,
    stale: bool)

  function SymbolOf(c: Coin): string
  {
    c.symbol
  }

  /** `coin.error` is truthy. */
  predicate HasError(c: Coin)
  {
    c.error.Some? && c.error.value != ""
  }

  /** Every record's `isFavorite` agrees with the favorites list. */
  ghost predicate FavoritesAgree(data: seq<Coin>, favorites: seq<string>)
  {
    forall i :: 0 <= i < |data| ==> data[i].isFavorite == (data[i].symbol in favorites)
  }

  // ---------------------------------------------------------------------------
  // Target list (lines 125-137)
  // ---------------------------------------------------------------------------

  function Symbols(data: seq<Coin>): (r: seq<string>)
    ensures |r| == |data| && forall i :: 0 <= i < |data| ==> r[i] == data[i].symbol
  {
    seq(|data|, i requires 0 <= i < |data| => data[i].symbol)
  }

  /** The branch that hands out the module-level array itself, so that the
      favorites pushed afterwards land in it. `searched` is "" when no coin was
      searched (null and "" are both falsy). */
  predicate UsesDefaultsArray(refreshOnly: bool, searched: string, defaults: seq<string>)
  {
    !refreshOnly && !(searched != "" && Upper(searched) !in defaults)
  }

  /** The list before the favorites are pushed (lines 125-129). */
  function BaseTargets(refreshOnly: bool, searched: string, current: seq<Coin>, defaults: seq<string>): seq<string>
  {
    if refreshOnly then Symbols(current)
    else if searched != "" && Upper(searched) !in defaults then [Upper(searched)] + defaults
    else defaults
  }

  /** The symbols requested, `[...new Set(coinsToFetch)]`. */
  function Targets(refreshOnly: bool, searched: string, current: seq<Coin>, favorites: seq<string>, defaults: seq<string>): seq<string>
  {
    Dedup(AppendMissing(BaseTargets(refreshOnly, searched, current, defaults), favorites))
  }

  /** The module-level array after the call. */
  function DefaultsAfter(refreshOnly: bool, searched: string, favorites: seq<string>, defaults: seq<string>): seq<string>
  {
    if UsesDefaultsArray(refreshOnly, searched, defaults) then AppendMissing(defaults, favorites) else defaults
  }

  /** Every base symbol and every favorite is requested, nothing is requested twice, each symbol
      keeps the place of its first occurrence, and nothing outside the base
      list and the favorites is requested. */
  lemma TargetsSpec(refreshOnly: bool, searched: string, current: seq<Coin>, favorites: seq<string>, defaults: seq<string>)
    ensures var t := Targets(refreshOnly, searched, current, favorites, defaults);
      var all := AppendMissing(BaseTargets(refreshOnly, searched, current, defaults), favorites);
      && NoDuplicates(t)
      && (forall f :: f in favorites ==> f in t)
      && (forall x :: x in BaseTargets(refreshOnly, searched, current, defaults) ==> x in t)
      && (forall x :: x in t ==> x in BaseTargets(refreshOnly, searched, current, defaults) || x in favorites)
      && (forall x :: x in t ==> x in all)
      && (forall i, j :: 0 <= i < j < |t| ==> FirstIndex(all, t[i]) < FirstIndex(all, t[j]))
  {
    var all := AppendMissing(BaseTargets(refreshOnly, searched, current, defaults), favorites);
    AppendMissingSpec(BaseTargets(refreshOnly, searched, current, defaults), favorites);
    DedupSpec(all);
  }

  /** A searched coin that is not among the defaults (compared upper-cased)
      is requested first. */
  lemma SearchedRequestedFirst(searched: string, current: seq<Coin>, favorites: seq<string>, defaults: seq<string>)
    requires searched != "" && Upper(searched) !in defaults
    ensures var t := Targets(false, searched, current, favorites, defaults);
      |t| > 0 && t[0] == Upper(searched)
  {
    var base := BaseTargets(false, searched, current, defaults);
    var all := AppendMissing(base, favorites);
    AppendMissingSpec(base, favorites);
    assert all[0] == Upper(searched);
    DedupSpec(all);
    var t := Dedup(all);
    assert Upper(searched) in t;
    var k := FirstIndex(t, Upper(searched));
    assert FirstIndex(all, Upper(searched)) == 0;
  }

  /** A refresh requests the coins already shown, in their order (when their
      symbols are distinct), followed by the favorites not among them. */
  lemma RefreshRequestsCurrent(current: seq<Coin>, favorites: seq<string>, defaults: seq<string>)
    requires NoDuplicates(Symbols(current))
    ensures var t := Targets(true, "", current, favorites, defaults);
      && |t| >= |current|
      && t[..|current|] == Symbols(current)
      && forall f :: f in favorites ==> f in t
  {
    var all := AppendMissing(Symbols(current), favorites);
    AppendMissingSpec(Symbols(current), favorites);
    DedupOfDistinct(all);
  }

  /** The aliasing of the default branch: a coin that was a favorite during a
      plain load stays in the module-level array, so every later plain load
      requests it, even after it has been removed from the favorites. */
  lemma FormerFavoritesStayRequested(favorites1: seq<string>, favorites2: seq<string>, current: seq<Coin>, defaults: seq<string>)
    ensures var after := DefaultsAfter(false, "", favorites1, defaults);
      forall f :: f in favorites1 ==> f in Targets(false, "", current, favorites2, after)
  {
    var after := DefaultsAfter(false, "", favorites1, defaults);
    AppendMissingSpec(defaults, favorites1);
    AppendMissingSpec(after, favorites2);
    DedupSpec(AppendMissing(after, favorites2));
  }

  /** Owner of the module-level `defaultCoins` array. */
  class CoinTargets {
    var defaultCoins: seq<string>

    constructor ()
      ensures defaultCoins == DefaultCoins
    {
      defaultCoins := DefaultCoins;
    }

    /** Lines 125-137. In the default branch `coinsToFetch` is the module
        array itself, so each favorite pushed also lands in `defaultCoins`. */
    method Plan(refreshOnly: bool, searched: string, current: seq<Coin>, favorites: seq<string>)
      returns (targets: seq<string>)
      modifies this
      ensures targets == Targets(refreshOnly, searched, current, favorites, old(defaultCoins))
      ensures defaultCoins == DefaultsAfter(refreshOnly, searched, favorites, old(defaultCoins))
    {
      var base := BaseTargets(refreshOnly, searched, current, defaultCoins);
      var aliased := UsesDefaultsArray(refreshOnly, searched, defaultCoins);
      var coinsToFetch := base;
      var i := 0;
      while i < |favorites|
        invariant 0 <= i <= |favorites|
        invariant coinsToFetch == AppendMissing(base, favorites[..i])
        invariant aliased ==> base == old(defaultCoins) && defaultCoins == coinsToFetch
        invariant !aliased ==> defaultCoins == old(defaultCoins)
      {
        assert favorites[..i + 1][..i] == favorites[..i];
        var fav := favorites[i];
        if fav !in coinsToFetch {
          coinsToFetch := coinsToFetch + [fav];
          if aliased {
            defaultCoins := coinsToFetch;
          }
        }
        i := i + 1;
      }
      assert favorites[..i] == favorites;
      targets := Dedup(coinsToFetch);
    }
  }

  // ---------------------------------------------------------------------------
  // Per-coin pipeline and records (lines 140-235)
  // ---------------------------------------------------------------------------

  datatype SearchHit = SearchHit(id: string, symbol: string)

  datatype AssetDetail = AssetDetail(
    symbol: string, name: string, priceUsd: real, changePercent24Hr: real,
    marketCapUsd: real, volumeUsd24Hr: real, supply: real, maxSupply: Option<real>)

  datatype HistoryPoint = HistoryPoint(priceUsd: real, time: int)

  /** What the API answers for one coin: the attempts of the search request
      (whose `data.data` may be missing), and of the detail and history
      requests for whichever asset id the search picks. */
  datatype CoinUpstream = CoinUpstream(
    search: nat -> Attempt<Option<seq<SearchHit>>>,
    detail: string -> nat -> Attempt<AssetDetail>,
    history: string -> nat -> Attempt<seq<HistoryPoint>>)

  /** The requests one coin's pipeline queues, in order. */
  datatype Request = SearchRequest(query: string) | DetailRequest(id: string) | HistoryRequest(id: string)

  datatype Fetched = Fetched(coin: Coin, requests: seq<Request>)

  /** The search hit used (lines 154-158): the first whose symbol equals the
      requested one ignoring case, or else the first hit. */
  function ChooseHit(hits: seq<SearchHit>, symbol: string): (i: nat)
    requires hits != []
    ensures i < |hits|
    ensures Lower(hits[i].symbol) == Lower(symbol) ==>
              forall j :: 0 <= j < i ==> Lower(hits[j].symbol) != Lower(symbol)
    ensures Lower(hits[i].symbol) != Lower(symbol) ==>
              i == 0 && forall j :: 0 <= j < |hits| ==> Lower(hits[j].symbol) != Lower(symbol)
  {
    var k := Keyed.FindIndex(hits, (h: SearchHit) => Lower(h.symbol), Lower(symbol));
    if k >= 0 then k else 0
  }

  /** The record of a coin whose three requests all answered (lines 187-203). */
  function FoundCoin(id: string, d: AssetDetail, history: seq<HistoryPoint>, favorites: seq<string>, now: int): Coin
  {
    Coin(
      Some(id), d.symbol, d.name,
      Some(d.priceUsd), Some(d.changePercent24Hr), Some(d.marketCapUsd),
      Some(d.volumeUsd24Hr), Some(d.supply), d.maxSupply,
      d.symbol in favorites, Some(now),
      Some(PriceHistory(
        seq(|history|, k requires 0 <= k < |history| => history[k].priceUsd),
        seq(|history|, k requires 0 <= k < |history| => history[k].time))),
      None, false)
  }

  /** The record of a coin the search found nothing for (lines 205-210). */
  function NotFoundCoin(symbol: string, favorites: seq<string>): Coin
  {
    var s := Upper(symbol);
    Coin(None, s, s, None, None, None, None, None, None, s in favorites, None, None, Some(NotFoundMessage), false)
  }

  /** The record of a coin whose pipeline threw (lines 211-233); `message` is
      the error's message, "" when it has none. */
  function FailedCoin(symbol: string, message: string, current: seq<Coin>, favorites: seq<string>): Coin
  {
    var s := Upper(symbol);
    var i := Keyed.FindIndex(current, SymbolOf, s);
    if i >= 0 then
      current[i].(
        error := Some("Failed to update: " + (if message != "" then message else "API error")),
        stale := true,
        isFavorite := s in favorites)
    else
      Coin(None, s, s, None, None, None, None, None, None, s in favorites, None, None,
           Some(if message != "" then message else "Failed to fetch data"), false)
  }

  /** A record with the three fields a failure rewrites blanked out. */
  function Shown(c: Coin): Coin
  {
    c.(error := None, stale := false, isFavorite := false)
  }

  /** A failed coin that is already shown keeps everything the first record
      under its symbol showed (price, history, ...) and is marked stale with a
      "Failed to update: ..." error; an unknown one gets a bare record under
      its upper-cased symbol. Either way it carries an error, and its
      `isFavorite` follows the favorites. */
  lemma FailedCoinSpec(symbol: string, message: string, current: seq<Coin>, favorites: seq<string>)
    ensures var c := FailedCoin(symbol, message, current, favorites);
      && HasError(c)
      && c.symbol == Upper(symbol)
      && c.isFavorite == (c.symbol in favorites)
    ensures var c := FailedCoin(symbol, message, current, favorites);
      forall j :: 0 <= j < |current| && current[j].symbol == Upper(symbol) &&
                  (forall q :: 0 <= q < j ==> current[q].symbol != Upper(symbol)) ==>
        && c.stale
        && Shown(c) == Shown(current[j])
        && c.error == Some("Failed to update: " + (if message != "" then message else "API error"))
    ensures var c := FailedCoin(symbol, message, current, favorites);
      (forall j :: 0 <= j < |current| ==> current[j].symbol != Upper(symbol)) ==>
        && !c.stale && c.id == None && c.price == None && c.priceHistory == None
        && c.name == Upper(symbol)
        && c.error == Some(if message != "" then message else "Failed to fetch data")
  {
    var s := Upper(symbol);
    var i := Keyed.FindIndex(current, SymbolOf, s);
    forall j | 0 <= j < |current| && current[j].symbol == s &&
               (forall q :: 0 <= q < j ==> current[q].symbol != s)
      ensures i == j
    {
      Keyed.FindIndexAt(current, SymbolOf, s, j);
    }
  }

  /** A failed record carries an error, and its `isFavorite` follows the
      favorites. */
  lemma FailedCoinAgrees(symbol: string, message: string, current: seq<Coin>, favorites: seq<string>)
    ensures var c := FailedCoin(symbol, message, current, favorites);
      HasError(c) && c.symbol == Upper(symbol) && c.isFavorite == (c.symbol in favorites)
  {
    var i := Keyed.FindIndex(current, SymbolOf, Upper(symbol));
    if i >= 0 {
      assert current[i].symbol == Upper(symbol);
    }
  }

  /** One coin's pipeline (lines 140-235): the search, then (when it finds
      something) the detail and the history of the chosen asset, each through
      `fetchWithRetry`; the first thrown failure ends the pipeline. Returns
      the record and the requests made, in order. */
  function FetchCoin(symbol: string, up: CoinUpstream, favorites: seq<string>, current: seq<Coin>, now: int): Fetched
  {
    AfterSearch(symbol, RetryRun(up.search, MaxRetries, InitialDelay).result, up, favorites, current, now)
  }

  /** The pipeline once the search has settled. */
  function AfterSearch(symbol: string, search: Attempt<Option<seq<SearchHit>>>, up: CoinUpstream,
                       favorites: seq<string>, current: seq<Coin>, now: int): Fetched
  {
    var asked := [SearchRequest(Lower(symbol))];
    if search.HttpFailure? then Fetched(FailedCoin(symbol, search.message, current, favorites), asked)
    else if search.body.None? || search.body.value == [] then Fetched(NotFoundCoin(symbol, favorites), asked)
    else
      var hits := search.body.value;
      var id := hits[ChooseHit(hits, symbol)].id;
      var rest := AfterDetail(symbol, id, RetryRun(up.detail(id), MaxRetries, InitialDelay).result, up, favorites, current, now);
      Fetched(rest.coin, asked + rest.requests)
  }

  /** The pipeline once the detail request for asset `id` has settled. */
  function AfterDetail(symbol: string, id: string, detail: Attempt<AssetDetail>, up: CoinUpstream,
                       favorites: seq<string>, current: seq<Coin>, now: int): Fetched
  {
    if detail.HttpFailure? then Fetched(FailedCoin(symbol, detail.message, current, favorites), [DetailRequest(id)])
    else
      var history := RetryRun(up.history(id), MaxRetries, InitialDelay).result;
      var coin :=
        if history.HttpFailure? then FailedCoin(symbol, history.message, current, favorites)
        else FoundCoin(id, detail.body, history.body, favorites, now);
      Fetched(coin, [DetailRequest(id), HistoryRequest(id)])
  }

  lemma FoundCoinAgrees(id: string, d: AssetDetail, history: seq<HistoryPoint>, favorites: seq<string>, now: int)
    ensures var c := FoundCoin(id, d, history, favorites, now);
      !HasError(c) && c.isFavorite == (c.symbol in favorites) && c.id == Some(id)
  {
  }

  lemma AfterDetailSpec(symbol: string, id: string, detail: Attempt<AssetDetail>, up: CoinUpstream,
                        favorites: seq<string>, current: seq<Coin>, now: int)
    ensures var f := AfterDetail(symbol, id, detail, up, favorites, current, now);
      && f.coin.isFavorite == (f.coin.symbol in favorites)
      && 1 <= |f.requests| <= 2
      && f.requests[0] == DetailRequest(id)
      && (|f.requests| == 2 ==> f.requests[1] == HistoryRequest(id))
      && (!HasError(f.coin) ==> |f.requests| == 2 && f.coin.id == Some(id))
  {
    if detail.HttpFailure? {
      FailedCoinAgrees(symbol, detail.message, current, favorites);
    } else {
      var history := RetryRun(up.history(id), MaxRetries, InitialDelay).result;
      if history.HttpFailure? {
        FailedCoinAgrees(symbol, history.message, current, favorites);
      } else {
        FoundCoinAgrees(id, detail.body, history.body, favorites, now);
      }
    }
  }

  /** The requests go search, detail, history, stopping at the first failure
      or an empty search; the search is for the lower-cased symbol and the
      other two for the same asset id. A record without error is one whose
      three requests all answered, and it carries that id. Whatever happens,
      the record's `isFavorite` agrees with the favorites. */
  lemma FetchCoinSpec(symbol: string, up: CoinUpstream, favorites: seq<string>, current: seq<Coin>, now: int)
    ensures var f := FetchCoin(symbol, up, favorites, current, now);
      && 1 <= |f.requests| <= 3
      && f.requests[0] == SearchRequest(Lower(symbol))
      && (|f.requests| >= 2 ==> f.requests[1].DetailRequest?)
      && (|f.requests| == 3 ==> f.requests[2] == HistoryRequest(f.requests[1].id))
      && (!HasError(f.coin) ==> |f.requests| == 3 && f.coin.id == Some(f.requests[1].id))
      && f.coin.isFavorite == (f.coin.symbol in favorites)
  {
    AfterSearchSpec(symbol, RetryRun(up.search, MaxRetries, InitialDelay).result, up, favorites, current, now);
  }

  /** `FetchCoinSpec` for any settled search. */
  lemma AfterSearchSpec(symbol: string, search: Attempt<Option<seq<SearchHit>>>, up: CoinUpstream,
                        favorites: seq<string>, current: seq<Coin>, now: int)
    ensures var f := AfterSearch(symbol, search, up, favorites, current, now);
      && 1 <= |f.requests| <= 3
      && f.requests[0] == SearchRequest(Lower(symbol))
      && (|f.requests| >= 2 ==> f.requests[1].DetailRequest?)
      && (|f.requests| == 3 ==> f.requests[2] == HistoryRequest(f.requests[1].id))
      && (!HasError(f.coin) ==> |f.requests| == 3 && f.coin.id == Some(f.requests[1].id))
      && f.coin.isFavorite == (f.coin.symbol in favorites)
  {
    if search.HttpFailure? {
      FailedCoinAgrees(symbol, search.message, current, favorites);
    } else if search.body.Some? && search.body.value != [] {
      var hits := search.body.value;
      var id := hits[ChooseHit(hits, symbol)].id;
      var rest := AfterDetail(symbol, id, RetryRun(up.detail(id), MaxRetries, InitialDelay).result, up, favorites, current, now);
      AfterDetailSpec(symbol, id, RetryRun(up.detail(id), MaxRetries, InitialDelay).result, up, favorites, current, now);
      var f := AfterSearch(symbol, search, up, favorites, current, now);
      assert f == Fetched(rest.coin, [SearchRequest(Lower(symbol))] + rest.requests);
      assert f.requests[1] == DetailRequest(id);
    }
  }

  /** A search that answers without hits (or without `data`) gives the
      "Cryptocurrency not found" record under the upper-cased symbol, after
      that one request. */
  lemma FetchCoinNotFound(symbol: string, up: CoinUpstream, favorites: seq<string>, current: seq<Coin>, now: int)
    requires var search := RetryRun(up.search, MaxRetries, InitialDelay).result;
      search.Response? && (search.body.None? || search.body.value == [])
    ensures var f := FetchCoin(symbol, up, favorites, current, now);
      && f.requests == [SearchRequest(Lower(symbol))]
      && f.coin.symbol == Upper(symbol) && f.coin.name == Upper(symbol)
      && f.coin.error == Some(NotFoundMessage) && f.coin.price == None
      && f.coin.isFavorite == (Upper(symbol) in favorites)
  {
  }

  /** When all three requests answer, the detail and history requests are
      for the chosen hit's asset, and the record is that asset's detail with
      one price and one time per history point, no error, and `lastUpdated`
      set to the time of the fetch. */
  lemma FetchCoinFound(symbol: string, up: CoinUpstream, favorites: seq<string>, current: seq<Coin>, now: int,
                       hits: seq<SearchHit>, d: AssetDetail, h: seq<HistoryPoint>)
    requires hits != []
    requires RetryRun(up.search, MaxRetries, InitialDelay).result == Response(Some(hits))
    requires RetryRun(up.detail(hits[ChooseHit(hits, symbol)].id), MaxRetries, InitialDelay).result == Response(d)
    requires RetryRun(up.history(hits[ChooseHit(hits, symbol)].id), MaxRetries, InitialDelay).result == Response(h)
    ensures var f := FetchCoin(symbol, up, favorites, current, now);
      var id := hits[ChooseHit(hits, symbol)].id;
      && f.requests == [SearchRequest(Lower(symbol)), DetailRequest(id), HistoryRequest(id)]
      && !HasError(f.coin) && !f.coin.stale
      && f.coin.id == Some(id) && f.coin.symbol == d.symbol && f.coin.name == d.name
      && f.coin.price == Some(d.priceUsd) && f.coin.marketCap == Some(d.marketCapUsd)
      && f.coin.priceChange24h == Some(d.changePercent24Hr) && f.coin.volume24h == Some(d.volumeUsd24Hr)
      && f.coin.supply == Some(d.supply) && f.coin.maxSupply == d.maxSupply
      && f.coin.isFavorite == (d.symbol in favorites)
      && f.coin.lastUpdated == Some(now)
      && f.coin.priceHistory.Some?
      && |f.coin.priceHistory.value.prices| == |h| == |f.coin.priceHistory.value.times|
      && (forall k :: 0 <= k < |h| ==> f.coin.priceHistory.value.prices[k] == h[k].priceUsd)
      && (forall k :: 0 <= k < |h| ==> f.coin.priceHistory.value.times[k] == h[k].time)
  {
    var id := hits[ChooseHit(hits, symbol)].id;
    var rest := AfterDetail(symbol, id, Response(d), up, favorites, current, now);
    assert rest == Fetched(FoundCoin(id, d, h, favorites, now), [DetailRequest(id), HistoryRequest(id)]);
    assert FetchCoin(symbol, up, favorites, current, now) == Fetched(rest.coin, [SearchRequest(Lower(symbol))] + rest.requests);
    FoundCoinFields(id, d, h, favorites, now);
  }

  /** The record built from a detail and a history. */
  lemma FoundCoinFields(id: string, d: AssetDetail, h: seq<HistoryPoint>, favorites: seq<string>, now: int)
    ensures var c := FoundCoin(id, d, h, favorites, now);
      && !HasError(c) && !c.stale
      && c.id == Some(id) && c.symbol == d.symbol && c.name == d.name
      && c.price == Some(d.priceUsd) && c.marketCap == Some(d.marketCapUsd)
      && c.priceChange24h == Some(d.changePercent24Hr) && c.volume24h == Some(d.volumeUsd24Hr)
      && c.supply == Some(d.supply) && c.maxSupply == d.maxSupply
      && c.isFavorite == (d.symbol in favorites)
      && c.lastUpdated == Some(now)
      && c.priceHistory.Some?
      && |c.priceHistory.value.prices| == |h| == |c.priceHistory.value.times|
      && (forall k :: 0 <= k < |h| ==> c.priceHistory.value.prices[k] == h[k].priceUsd)
      && (forall k :: 0 <= k < |h| ==> c.priceHistory.value.times[k] == h[k].time)
  {
  }

  // ---------------------------------------------------------------------------
  // The payload (lines 237-239)
  // ---------------------------------------------------------------------------

  /** `cryptoData.sort((a, b) => (a.symbol === S ? -1 : 1))`. The comparator is
      not a consistent order; with at most one record under `S` the engine's
      sort moves that record to the front and leaves the rest in order, which
      is this stable partition. */
  function SearchFirst(data: seq<Coin>, s: string): seq<Coin>
  {
    Filter(data, (c: Coin) => c.symbol == s) + Filter(data, (c: Coin) => c.symbol != s)
  }

  lemma {:induction false} FilterNone<T>(s: seq<T>, p: T -> bool)
    requires forall i :: 0 <= i < |s| ==> !p(s[i])
    ensures Filter(s, p) == []
  {
    if s != [] { FilterNone(s[1..], p); }
  }

  /** The reorder is a permutation; it puts a record under the searched symbol
      first when there is one, and changes nothing when there is none. */
  lemma SearchFirstSpec(data: seq<Coin>, s: string)
    ensures multiset(SearchFirst(data, s)) == multiset(data)
    ensures (exists i :: 0 <= i < |data| && data[i].symbol == s) ==>
              |SearchFirst(data, s)| > 0 && SearchFirst(data, s)[0].symbol == s
    ensures (forall i :: 0 <= i < |data| ==> data[i].symbol != s) ==> SearchFirst(data, s) == data
  {
    var p := (c: Coin) => c.symbol == s;
    var q := (c: Coin) => c.symbol != s;
    FilterPartition(data, p, q);
    if exists i :: 0 <= i < |data| && data[i].symbol == s {
      var i :| 0 <= i < |data| && data[i].symbol == s;
      FilterKeeps(data, p, data[i]);
      assert Filter(data, p)[0] in Filter(data, p);
    }
    if forall i :: 0 <= i < |data| ==> data[i].symbol != s {
      FilterNone(data, p);
      Keyed.FilterAll(data, q);
    }
  }

  /** One record per requested symbol, in request order. */
  function FetchAll(targets: seq<string>, up: string -> CoinUpstream, favorites: seq<string>, current: seq<Coin>, now: int): (r: seq<Fetched>)
    ensures |r| == |targets|
  {
    seq(|targets|, i requires 0 <= i < |targets| => FetchCoin(targets[i], up(targets[i]), favorites, current, now))
  }

  function CoinsOf(fs: seq<Fetched>): (r: seq<Coin>)
    ensures |r| == |fs|
  {
    seq(|fs|, i requires 0 <= i < |fs| => fs[i].coin)
  }

  /** The fulfilled payload of `fetchCryptoData({ searchedCoin, refreshOnly })`
      for the given target list. */
  function Payload(targets: seq<string>, up: string -> CoinUpstream, searched: string, favorites: seq<string>, current: seq<Coin>, now: int): seq<Coin>
  {
    var coins := CoinsOf(FetchAll(targets, up, favorites, current, now));
    if searched != "" then SearchFirst(coins, Upper(searched)) else coins
  }

  /** The payload has one record per target; every record's `isFavorite`
      agrees with the favorites; and after a search, a record under the
      searched symbol (if any) comes first. */
  lemma PayloadSpec(targets: seq<string>, up: string -> CoinUpstream, searched: string, favorites: seq<string>, current: seq<Coin>, now: int)
    ensures var r := Payload(targets, up, searched, favorites, current, now);
      && |r| == |targets|
      && FavoritesAgree(r, favorites)
      && (searched != "" && (exists i :: 0 <= i < |r| && r[i].symbol == Upper(searched)) ==> r[0].symbol == Upper(searched))
  {
    var coins := CoinsOf(FetchAll(targets, up, favorites, current, now));
    forall i | 0 <= i < |coins| ensures coins[i].isFavorite == (coins[i].symbol in favorites) {
      FetchCoinSpec(targets[i], up(targets[i]), favorites, current, now);
    }
    if searched != "" {
      var S := Upper(searched);
      SearchFirstSpec(coins, S);
      var r := SearchFirst(coins, S);
      assert |r| == |multiset(r)| == |multiset(coins)| == |coins|;
      forall i | 0 <= i < |r| ensures r[i].isFavorite == (r[i].symbol in favorites) {
        assert r[i] in multiset(coins);
      }
      if exists i :: 0 <= i < |r| && r[i].symbol == S {
        var i :| 0 <= i < |r| && r[i].symbol == S;
        assert r[i] in multiset(coins);
      }
    }
  }

  /** `rejectWithValue(error.response?.data?.error || "Error fetching cryptocurrency data")`. */
  function RejectionMessage(apiError: Option<string>): (m: string)
    ensures m != ""
    ensures apiError.Some? && apiError.value != "" ==> m == apiError.value
  {
    if apiError.Some? && apiError.value != "" then apiError.value else "Error fetching cryptocurrency data"
  }

  // ---------------------------------------------------------------------------
  // Reducers (lines 248-331)
  // ---------------------------------------------------------------------------

  function FlipFavorite(c: Coin): Coin
  {
    c.(isFavorite := !c.isFavorite)
  }

  /** The `cryptoData.map` of `toggleFavorite`. */
  function FlipWhere(data: seq<Coin>, symbol: string): seq<Coin>
  {
    Keyed.MapWhere(data, SymbolOf, symbol, FlipFavorite)
  }

  /** Toggling keeps each record's flag in agreement with the list. */
  lemma ToggleKeepsAgreement(data: seq<Coin>, favorites: seq<string>, symbol: string)
    requires FavoritesAgree(data, favorites)
    ensures FavoritesAgree(FlipWhere(data, symbol), Keyed.Toggle(favorites, symbol))
  {
    Keyed.ToggleSpec(favorites, symbol);
  }

  /** Toggling a symbol twice restores the records, and restores the list when
      the symbol was not a favorite to begin with. */
  lemma ToggleFavoriteTwice(data: seq<Coin>, favorites: seq<string>, symbol: string)
    ensures FlipWhere(FlipWhere(data, symbol), symbol) == data
    ensures symbol !in favorites ==> Keyed.Toggle(Keyed.Toggle(favorites, symbol), symbol) == favorites
  {
    Keyed.MapWhereTwice(data, SymbolOf, symbol, FlipFavorite);
    if symbol !in favorites { Keyed.ToggleTwice(favorites, symbol); }
  }

  /** `updateLivePrice`: the first record under `symbol`, if any, takes the
      live price and percentage and the update time. */
  function WithLivePrice(data: seq<Coin>, symbol: string, price: real, percent: real, now: int): (r: seq<Coin>)
    ensures |r| == |data|
  {
    var i := Keyed.FindIndex(data, SymbolOf, symbol);
    if i < 0 then data
    else data[i := data[i].(price := Some(price), priceChange24h := Some(percent), lastUpdated := Some(now))]
  }

  /** Only the first record under the symbol changes, and only in its price,
      24h change and update time; without such a record nothing changes. */
  lemma LivePriceSpec(data: seq<Coin>, symbol: string, price: real, percent: real, now: int)
    ensures var r := WithLivePrice(data, symbol, price, percent, now);
      (forall i :: 0 <= i < |data| ==> data[i].symbol != symbol) ==> r == data
    ensures var r := WithLivePrice(data, symbol, price, percent, now);
      forall i :: 0 <= i < |data| && data[i].symbol == symbol &&
                  (forall j :: 0 <= j < i ==> data[j].symbol != symbol) ==>
        && r[i].price == Some(price) && r[i].priceChange24h == Some(percent) && r[i].lastUpdated == Some(now)
        && r[i].(price := data[i].price, priceChange24h := data[i].priceChange24h, lastUpdated := data[i].lastUpdated) == data[i]
        && forall j :: 0 <= j < |data| && j != i ==> r[j] == data[j]
  {
    forall i | 0 <= i < |data| && data[i].symbol == symbol && (forall j :: 0 <= j < i ==> data[j].symbol != symbol)
      ensures Keyed.FindIndex(data, SymbolOf, symbol) == i
    {
      Keyed.FindIndexAt(data, SymbolOf, symbol, i);
    }
  }

  /** Re-applying the same live update changes nothing further. */
  lemma LivePriceIdempotent(data: seq<Coin>, symbol: string, price: real, percent: real, now: int)
    ensures var once := WithLivePrice(data, symbol, price, percent, now);
      WithLivePrice(once, symbol, price, percent, now) == once
  {
    var i := Keyed.FindIndex(data, SymbolOf, symbol);
    if i >= 0 {
      var once := WithLivePrice(data, symbol, price, percent, now);
      Keyed.FindIndexAt(once, SymbolOf, symbol, i);
    }
  }

  /** Live updates and the refresh merge keep every flag in agreement with
      the favorites (the merged-in records agreeing themselves). */
  lemma {:induction false} MergeKeepsAgreement(data: seq<Coin>, payload: seq<Coin>, favorites: seq<string>)
    requires FavoritesAgree(data, favorites) && FavoritesAgree(payload, favorites)
    ensures FavoritesAgree(Keyed.UpsertAll(data, payload, SymbolOf), favorites)
  {
    if payload != [] {
      var init := payload[..|payload| - 1];
      assert FavoritesAgree(init, favorites) by {
        forall i | 0 <= i < |init| ensures init[i].isFavorite == (init[i].symbol in favorites) {
          assert init[i] == payload[i];
        }
      }
      MergeKeepsAgreement(data, init, favorites);
    }
  }

  lemma LivePriceKeepsAgreement(data: seq<Coin>, favorites: seq<string>, symbol: string, price: real, percent: real, now: int)
    requires FavoritesAgree(data, favorites)
    ensures FavoritesAgree(WithLivePrice(data, symbol, price, percent, now), favorites)
  {
  }

  /** The crypto slice's state. `saved` stands for the `favoriteCryptoCoins`
      entry of local storage. */
  class CryptoStore {
    var cryptoData: seq<Coin>
    var loading: bool
    var error: Option<string>
    var favorites: seq<string>
    var saved: seq<string>
    var lastRefresh: Option<int>

    /** The initial state; `stored` is the parsed storage entry, `None` when it
        is missing or does not parse. */
    constructor (stored: Option<seq<string>>)
      ensures cryptoData == [] && !loading && error == None && lastRefresh == None
      ensures favorites == (if stored.Some? then stored.value else [])
      ensures saved == favorites
    {
      cryptoData := [];
      loading := false;
      error := None;
      favorites := if stored.Some? then stored.value else [];
      saved := favorites;
      lastRefresh := None;
    }

    /** `toggleFavorite`: the list is toggled and saved, and every record under
        the symbol flips its flag. */
    method ToggleFavorite(symbol: string)
      modifies this
      ensures favorites == Keyed.Toggle(old(favorites), symbol) && saved == favorites
      ensures cryptoData == FlipWhere(old(cryptoData), symbol)
      ensures loading == old(loading) && error == old(error) && lastRefresh == old(lastRefresh)
    {
      favorites := Keyed.Toggle(favorites, symbol);
      cryptoData := Keyed.MapWhere(cryptoData, SymbolOf, symbol, FlipFavorite);
      saved := favorites;
    }

    method UpdateLivePrice(symbol: string, price: real, percent: real, now: int)
      modifies this
      ensures cryptoData == WithLivePrice(old(cryptoData), symbol, price, percent, now)
      ensures favorites == old(favorites) && saved == old(saved)
      ensures loading == old(loading) && error == old(error) && lastRefresh == old(lastRefresh)
    {
      var coinIndex := Keyed.FindIndex(cryptoData, SymbolOf, symbol);
      if coinIndex != -1 {
        cryptoData := cryptoData[coinIndex := cryptoData[coinIndex].(price := Some(price), priceChange24h := Some(percent), lastUpdated := Some(now))];
      }
    }

    /** `fetchCryptoData.pending`: the spinner only for a full load. */
    method Pending(refreshOnly: bool)
      modifies this
      ensures loading == (old(loading) || !refreshOnly) && error == None
      ensures cryptoData == old(cryptoData) && favorites == old(favorites) && saved == old(saved)
      ensures lastRefresh == old(lastRefresh)
    {
      if !refreshOnly {
        loading := true;
      }
      error := None;
    }

    /** `fetchCryptoData.fulfilled`: a full load replaces the records; a
        refresh merges the payload in, record by record. */
    method Fulfilled(refreshOnly: bool, payload: seq<Coin>, now: int)
      modifies this
      ensures !loading && lastRefresh == Some(now)
      ensures cryptoData == if refreshOnly then Keyed.UpsertAll(old(cryptoData), payload, SymbolOf) else payload
      ensures error == old(error) && favorites == old(favorites) && saved == old(saved)
    {
      loading := false;
      lastRefresh := Some(now);
      if !refreshOnly {
        cryptoData := payload;
        return;
      }
      var i := 0;
      while i < |payload|
        invariant 0 <= i <= |payload|
        invariant cryptoData == Keyed.UpsertAll(old(cryptoData), payload[..i], SymbolOf)
        invariant !loading && lastRefresh == Some(now)
        invariant error == old(error) && favorites == old(favorites) && saved == old(saved)
      {
        assert payload[..i + 1][..i] == payload[..i];
        var newCoin := payload[i];
        var existingIndex := Keyed.FindIndex(cryptoData, SymbolOf, newCoin.symbol);
        if existingIndex >= 0 {
          cryptoData := cryptoData[existingIndex := newCoin];
        } else {
          cryptoData := cryptoData + [newCoin];
        }
        i := i + 1;
      }
      assert payload[..i] == payload;
    }

    /** `fetchCryptoData.rejected`. */
    method Rejected(message: string)
      modifies this
      ensures !loading && error == Some(message)
      ensures cryptoData == old(cryptoData) && favorites == old(favorites) && saved == old(saved)
      ensures lastRefresh == old(lastRefresh)
    {
      loading := false;
      error := Some(message);
    }
  }
}
