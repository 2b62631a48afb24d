/** The weather slice (redux/slices/weatherSlice.js): the city list of a
    fetch, the per-city pipeline (coordinates lookup, current weather, five-day
    forecast) with its one-reading-per-day extraction loop, the fallback
    records, and the store with its reducers. Each request is made once (no
    retry); its answer is an input. */
module WeatherSlice {
  import opened Common
  import Keyed

  /** The module-level `defaultCities` array, as first loaded. */
  const DefaultCities: seq<string> := ["New York", "London", "Tokyo"]
  const NotFoundMessage := "City not found"
  /** Readings kept by the forecast loop. */
  const ForecastDays: nat := 5

  /** The temperatures of the forecast and, per temperature, the reading's
      time in milliseconds (the source formats it as a short date label). */
  datatype Forecast = Forecast(temps: seq<real>, labels: seq<int>)

  /** A record of `weatherData`; fields a record does not carry are `None`.
      `error` is `None` also where the source stores `undefined` (a failure
      without a message). */
  datatype City = City(
    name: string,
    displayName: Option<string>,
    temp: Option<real>,
    humidity: Option<real>,
    condition: Option<string>,
    iconCode: Option<string>,
    isFavorite: bool,
    lastUpdated: Option<int>,
    forecast: Option<Forecast>,
    error: Option<string>,
    stale: bool)

  function NameOf(c: City): string
  {
    c.name
  }

  /** `city.error` is truthy. */
  predicate HasError(c: City)
  {
    c.error.Some? && c.error.value != ""
  }

  ghost predicate FavoritesAgree(data: seq<City>, favorites: seq<string>)
  {
    forall i :: 0 <= i < |data| ==> data[i].isFavorite == (data[i].name in favorites)
  }

  // ---------------------------------------------------------------------------
  // City list (lines 38-56)
  // ---------------------------------------------------------------------------

  function Names(data: seq<City>): (r: seq<string>)
    ensures |r| == |data| && forall i :: 0 <= i < |data| ==> r[i] == data[i].name
  {
    seq(|data|, i requires 0 <= i < |data| => data[i].name)
  }

  /** The branch that hands out the module-level array itself. `searched` is
      "" when no city was searched. */
  predicate UsesDefaultsArray(refreshOnly: bool, searched: string, defaults: seq<string>)
  {
    !refreshOnly && !(searched != "" && searched !in defaults)
  }

  function BaseCities(refreshOnly: bool, searched: string, current: seq<City>, defaults: seq<string>): seq<string>
  {
    if refreshOnly then Names(current)
    else if searched != "" && searched !in defaults then [searched] + defaults
    else defaults
  }

  /** `citiesToFetch` after the favorites are pushed; there is no `Set` step. */
  function Targets(refreshOnly: bool, searched: string, current: seq<City>, favorites: seq<string>, defaults: seq<string>): seq<string>
  {
    AppendMissing(BaseCities(refreshOnly, searched, current, defaults), favorites)
  }

  function DefaultsAfter(refreshOnly: bool, searched: string, favorites: seq<string>, defaults: seq<string>): seq<string>
  {
    if UsesDefaultsArray(refreshOnly, searched, defaults) then AppendMissing(defaults, favorites) else defaults
  }

  /** The base list is kept as it is, in front (a refresh requests the cities
      shown, in their order, duplicates included), every favorite is
      requested, and nothing else is. */
  lemma CityTargetsSpec(refreshOnly: bool, searched: string, current: seq<City>, favorites: seq<string>, defaults: seq<string>)
    ensures var base := BaseCities(refreshOnly, searched, current, defaults);
      var t := Targets(refreshOnly, searched, current, favorites, defaults);
      && |t| >= |base| && t[..|base|] == base
      && (forall f :: f in favorites ==> f in t)
      && (forall x :: x in t ==> x in base || x in favorites)
    ensures refreshOnly ==> Targets(refreshOnly, searched, current, favorites, defaults)[..|current|] == Names(current)
    ensures !refreshOnly && searched != "" && searched !in defaults ==>
      Targets(refreshOnly, searched, current, favorites, defaults)[0] == searched
  {
    AppendMissingSpec(BaseCities(refreshOnly, searched, current, defaults), favorites);
  }

  /** The comparison with the defaults is exact: a search for "london" is
      not recognised as "London", and both are requested. */
  lemma SearchIsCaseSensitive(current: seq<City>)
    ensures var t := Targets(false, "london", current, [], DefaultCities);
      t == ["london", "New York", "London", "Tokyo"]
  {
    assert "london" != "London";
  }

  /** A favorite pushed during a plain load stays in the module-level array,
      so every later plain load requests it, favorite or not. */
  lemma FormerFavoritesStayRequested(favorites1: seq<string>, favorites2: seq<string>, current: seq<City>, defaults: seq<string>)
    ensures var after := DefaultsAfter(false, "", favorites1, defaults);
      forall f :: f in favorites1 ==> f in Targets(false, "", current, favorites2, after)
  {
    var after := DefaultsAfter(false, "", favorites1, defaults);
    AppendMissingSpec(defaults, favorites1);
    AppendMissingSpec(after, favorites2);
  }

  /** Owner of the module-level `defaultCities` array. */
  class CityTargets {
    var defaultCities: seq<string>

    constructor ()
      ensures defaultCities == DefaultCities
    {
      defaultCities := DefaultCities;
    }

    /** Lines 38-56; in the default branch the pushes land in `defaultCities`. */
    method Plan(refreshOnly: bool, searched: string, current: seq<City>, favorites: seq<string>)
      returns (targets: seq<string>)
      modifies this
      ensures targets == Targets(refreshOnly, searched, current, favorites, old(defaultCities))
      ensures defaultCities == DefaultsAfter(refreshOnly, searched, favorites, old(defaultCities))
    {
      var base := BaseCities(refreshOnly, searched, current, defaultCities);
      var aliased := UsesDefaultsArray(refreshOnly, searched, defaultCities);
      targets := base;
      var i := 0;
      while i < |favorites|
        invariant 0 <= i <= |favorites|
        invariant targets == AppendMissing(base, favorites[..i])
        invariant aliased ==> base == old(defaultCities) && defaultCities == targets
        invariant !aliased ==> defaultCities == old(defaultCities)
      {
        assert favorites[..i + 1][..i] == favorites[..i];
        var fav := favorites[i];
        if fav !in targets {
          targets := targets + [fav];
          if aliased {
            defaultCities := targets;
          }
        }
        i := i + 1;
      }
      assert favorites[..i] == favorites;
    }
  }

  // ---------------------------------------------------------------------------
  // Forecast extraction (lines 86-104)
  // ---------------------------------------------------------------------------

  /** One element of `forecastRes.data.list`: `dt_txt`, `main.temp`, `dt`. */
  datatype ForecastItem = ForecastItem(dtTxt: string, temp: real, dt: int)

  /** `dtTxt.split(' ')[0]`: the text before the first space. */
  function DatePart(dtTxt: string): (r: string)
    ensures ' ' !in r
    ensures |r| <= |dtTxt| && r == dtTxt[..|r|]
  {
    if ' ' in dtTxt then dtTxt[..FirstIndex(dtTxt, ' ')] else dtTxt
  }

  /** The loop's variables after some items: the temperatures and labels
      pushed, `lastDate`, and which items were taken. */
  datatype Daily = Daily(temps: seq<real>, labels: seq<int>, lastDate: string, taken: seq<nat>)

  /** Whether the loop takes `item` in state `d`. */
  predicate Takes(d: Daily, item: ForecastItem)
  {
    DatePart(item.dtTxt) != d.lastDate && |d.temps| < ForecastDays
  }

  /** The `forEach` over the forecast list. */
  function DailyOf(items: seq<ForecastItem>): Daily
  {
    if items == [] then Daily([], [], "", [])
    else
      var n := |items| - 1;
      var d := DailyOf(items[..n]);
      if Takes(d, items[n]) then
        Daily(d.temps + [items[n].temp], d.labels + [items[n].dt * 1000], DatePart(items[n].dtTxt), d.taken + [n])
      else d
  }

  /** At most five readings, one label per reading, taken in list order. */
  lemma {:induction false} DailyShape(items: seq<ForecastItem>)
    ensures var d := DailyOf(items);
      && |d.temps| <= ForecastDays
      && |d.labels| == |d.temps| == |d.taken|
      && (forall k :: 0 <= k < |d.taken| ==> d.taken[k] < |items|)
      && (forall k, l :: 0 <= k < l < |d.taken| ==> d.taken[k] < d.taken[l])
  {
    if items != [] {
      DailyShape(items[..|items| - 1]);
    }
  }

  /** Reading `k` is the temperature of the `k`-th item taken, and its label
      that item's `dt` in milliseconds. */
  lemma {:induction false} DailyValues(items: seq<ForecastItem>)
    ensures var d := DailyOf(items);
      && |d.labels| == |d.temps| == |d.taken|
      && (forall k :: 0 <= k < |d.taken| ==> d.taken[k] < |items|)
      && (forall k :: 0 <= k < |d.taken| ==>
            d.temps[k] == items[d.taken[k]].temp && d.labels[k] == items[d.taken[k]].dt * 1000)
  {
    DailyShape(items);
    if items != [] {
      var n := |items| - 1;
      DailyValues(items[..n]);
      var d := DailyOf(items[..n]);
      forall k | 0 <= k < |d.taken| ensures items[..n][d.taken[k]] == items[d.taken[k]] { }
    }
  }

  /** `lastDate` is the date part of the last reading taken, and "" before
      any; the first reading's date part is not "". */
  lemma {:induction false} DailyLast(items: seq<ForecastItem>)
    ensures var d := DailyOf(items);
      && |d.taken| == |d.temps|
      && (forall k :: 0 <= k < |d.taken| ==> d.taken[k] < |items|)
      && (|d.taken| > 0 ==> DatePart(items[d.taken[0]].dtTxt) != "")
      && d.lastDate == (if d.taken == [] then "" else DatePart(items[d.taken[|d.taken| - 1]].dtTxt))
  {
    DailyShape(items);
    if items != [] {
      var n := |items| - 1;
      var d := DailyOf(items[..n]);
      DailyLast(items[..n]);
      DailyShape(items[..n]);
      if d.taken != [] {
        assert items[..n][d.taken[0]] == items[d.taken[0]];
        assert items[..n][d.taken[|d.taken| - 1]] == items[d.taken[|d.taken| - 1]];
      }
      if Takes(d, items[n]) {
        var e := DailyOf(items);
        assert e.taken == d.taken + [n] && e.lastDate == DatePart(items[n].dtTxt);
        assert e.taken[|e.taken| - 1] == n;
        assert d.taken == [] ==> e.taken[0] == n && DatePart(items[n].dtTxt) != "";
        assert d.taken != [] ==> e.taken[0] == d.taken[0];
      }
    }
  }

  /** Each reading's date part differs from the one taken before it. */
  lemma {:induction false} DailyDates(items: seq<ForecastItem>)
    ensures var d := DailyOf(items);
      && (forall k :: 0 <= k < |d.taken| ==> d.taken[k] < |items|)
      && (forall k :: 0 < k < |d.taken| ==>
            DatePart(items[d.taken[k]].dtTxt) != DatePart(items[d.taken[k - 1]].dtTxt))
  {
    DailyShape(items);
    if items != [] {
      var n := |items| - 1;
      DailyDates(items[..n]);
      DailyLast(items[..n]);
      var d := DailyOf(items[..n]);
      forall k | 0 <= k < |d.taken| ensures items[..n][d.taken[k]] == items[d.taken[k]] { }
    }
  }

  /** An item the loop skips is one that came when five readings were
      already kept, or whose date part is the last date taken. */
  lemma {:induction false} DailySkips(items: seq<ForecastItem>, i: nat)
    requires i < |items|
    requires !Takes(DailyOf(items[..i]), items[i])
    ensures var d := DailyOf(items[..i]);
      |d.temps| == ForecastDays || DatePart(items[i].dtTxt) == d.lastDate
    ensures DailyOf(items[..i + 1]) == DailyOf(items[..i])
  {
    DailyShape(items[..i]);
    assert items[..i + 1][..i] == items[..i];
  }

  /** The forecast loop. */
  method ExtractForecast(items: seq<ForecastItem>) returns (dailyTemps: seq<real>, dailyLabels: seq<int>)
    ensures dailyTemps == DailyOf(items).temps && dailyLabels == DailyOf(items).labels
  {
    dailyTemps := [];
    dailyLabels := [];
    var lastDate := "";
    ghost var taken: seq<nat> := [];
    var i := 0;
    while i < |items|
      invariant 0 <= i <= |items|
      invariant Daily(dailyTemps, dailyLabels, lastDate, taken) == DailyOf(items[..i])
    {
      assert items[..i + 1][..i] == items[..i];
      var item := items[i];
      var itemDate := DatePart(item.dtTxt);
      if itemDate != lastDate && |dailyTemps| < ForecastDays {
        dailyTemps := dailyTemps + [item.temp];
        dailyLabels := dailyLabels + [item.dt * 1000];
        lastDate := itemDate;
        taken := taken + [i];
      }
      i := i + 1;
    }
    assert items[..i] == items;
  }

  // ---------------------------------------------------------------------------
  // Per-city pipeline and records (lines 59-140)
  // ---------------------------------------------------------------------------

  /** What one `axios.get` produced: the response data, or a thrown error whose
      `message` may be missing. */
  datatype Fetch<T> = Got(value: T) | Threw(message: Option<string>)

  datatype Coord = Coord(lat: real, lon: real)

  /** The answer of the `weather?q=` lookup: `length` is the `data.length`
      property (absent on the single object that endpoint returns). */
  datatype GeoData = GeoData(length: Option<int>, name: Option<string>, coord: Coord)

  datatype CurrentData = CurrentData(temp: real, humidity: real, condition: string, iconCode: string)

  /** The answers for one city: the lookup, and the two requests made with the
      coordinates it gives. */
  datatype CityUpstream = CityUpstream(
    geo: Fetch<GeoData>,
    current: Coord -> Fetch<CurrentData>,
    forecast: Coord -> Fetch<seq<ForecastItem>>)

  datatype Request = GeoRequest(city: string) | CurrentRequest(at: Coord) | ForecastRequest(at: Coord)

  datatype Fetched = Fetched(city: City, requests: seq<Request>)

  function FoundCity(city: string, geo: GeoData, cur: CurrentData, items: seq<ForecastItem>, favorites: seq<string>, now: int): City
  {
    var d := DailyOf(items);
    City(city, geo.name, Some(cur.temp), Some(cur.humidity), Some(cur.condition), Some(cur.iconCode),
         city in favorites, Some(now), Some(Forecast(d.temps, d.labels)), None, false)
  }

  function NotFoundCity(city: string, favorites: seq<string>): City
  {
    City(city, None, None, None, None, None, city in favorites, None, None, Some(NotFoundMessage), false)
  }

  /** The `catch` of lines 120-138. The `rejectWithValue` call there has no
      effect: its result is discarded. */
  function FailedCity(city: string, message: Option<string>, current: seq<City>, favorites: seq<string>): City
  {
    var i := Keyed.FindIndex(current, NameOf, city);
    if i >= 0 then
      current[i].(
        error := Some("Failed to update: " + (if message.Some? then message.value else "undefined")),
        stale := true,
        isFavorite := city in favorites)
    else
      City(city, None, None, None, None, None, city in favorites, None, None, message, false)
  }

  function Shown(c: City): City
  {
    c.(error := None, stale := false, isFavorite := false)
  }

  /** A failed city already shown keeps what the first record under its name
      showed and is marked stale with a "Failed to update: ..." error (reading
      "undefined" when the error has no message); an unknown one gets a bare
      record whose error is the message itself, so a failure without a message
      leaves no error on it. */
  lemma FailedCitySpec(city: string, message: Option<string>, current: seq<City>, favorites: seq<string>)
    ensures var c := FailedCity(city, message, current, favorites);
      c.name == city && c.isFavorite == (city in favorites)
    ensures var c := FailedCity(city, message, current, favorites);
      forall j :: 0 <= j < |current| && current[j].name == city &&
                  (forall q :: 0 <= q < j ==> current[q].name != city) ==>
        && c.stale && HasError(c) && Shown(c) == Shown(current[j])
        && c.error == Some("Failed to update: " + (if message.Some? then message.value else "undefined"))
    ensures var c := FailedCity(city, message, current, favorites);
      (forall j :: 0 <= j < |current| ==> current[j].name != city) ==>
        && !c.stale && c.error == message && c.temp == None && c.forecast == None
        && (HasError(c) <==> message.Some? && message.value != "")
  {
    var i := Keyed.FindIndex(current, NameOf, city);
    forall j | 0 <= j < |current| && current[j].name == city && (forall q :: 0 <= q < j ==> current[q].name != city)
      ensures i == j
    {
      Keyed.FindIndexAt(current, NameOf, city, j);
    }
  }

  /** A failed record keeps the name and follows the favorites, and one that
      still shows a forecast is marked stale. */
  lemma FailedCityAgrees(city: string, message: Option<string>, current: seq<City>, favorites: seq<string>)
    ensures var c := FailedCity(city, message, current, favorites);
      c.name == city && c.isFavorite == (city in favorites) && (c.forecast.Some? ==> c.stale)
  {
    var i := Keyed.FindIndex(current, NameOf, city);
    if i >= 0 {
      assert current[i].name == city;
    }
  }

  /** One city's pipeline. */
  function FetchCity(city: string, up: CityUpstream, favorites: seq<string>, current: seq<City>, now: int): Fetched
  {
    var asked := [GeoRequest(city)];
    if up.geo.Threw? then Fetched(FailedCity(city, up.geo.message, current, favorites), asked)
    else if up.geo.value.length == Some(0) then Fetched(NotFoundCity(city, favorites), asked)
    else
      var rest := AfterLookup(city, up.geo.value, up, favorites, current, now);
      Fetched(rest.city, asked + rest.requests)
  }

  /** The pipeline once the lookup has answered. */
  function AfterLookup(city: string, geo: GeoData, up: CityUpstream, favorites: seq<string>, current: seq<City>, now: int): Fetched
  {
    var at := geo.coord;
    var cur := up.current(at);
    if cur.Threw? then Fetched(FailedCity(city, cur.message, current, favorites), [CurrentRequest(at)])
    else
      var fc := up.forecast(at);
      var record :=
        if fc.Threw? then FailedCity(city, fc.message, current, favorites)
        else FoundCity(city, geo, cur.value, fc.value, favorites, now);
      Fetched(record, [CurrentRequest(at), ForecastRequest(at)])
  }

  lemma AfterLookupSpec(city: string, geo: GeoData, up: CityUpstream, favorites: seq<string>, current: seq<City>, now: int)
    ensures var f := AfterLookup(city, geo, up, favorites, current, now);
      && f.city.name == city && f.city.isFavorite == (city in favorites)
      && 1 <= |f.requests| <= 2
      && f.requests[0] == CurrentRequest(geo.coord)
      && (|f.requests| == 2 ==> f.requests[1] == ForecastRequest(geo.coord))
      && (f.city.forecast.Some? && !f.city.stale ==> |f.requests| == 2)
  {
    var cur := up.current(geo.coord);
    if cur.Threw? {
      FailedCityAgrees(city, cur.message, current, favorites);
    } else if up.forecast(geo.coord).Threw? {
      FailedCityAgrees(city, up.forecast(geo.coord).message, current, favorites);
    }
  }

  /** The record is always filed under the city's own name with `isFavorite`
      from the favorites; the lookup comes first, and the other two requests
      use the coordinates it returned. */
  lemma FetchCitySpec(city: string, up: CityUpstream, favorites: seq<string>, current: seq<City>, now: int)
    ensures var f := FetchCity(city, up, favorites, current, now);
      && f.city.name == city && f.city.isFavorite == (city in favorites)
      && 1 <= |f.requests| <= 3
      && f.requests[0] == GeoRequest(city)
      && (|f.requests| >= 2 ==> up.geo.Got? && f.requests[1] == CurrentRequest(up.geo.value.coord))
      && (|f.requests| == 3 ==> f.requests[2] == ForecastRequest(up.geo.value.coord))
  {
    if up.geo.Threw? {
      FailedCityAgrees(city, up.geo.message, current, favorites);
    } else if up.geo.value.length != Some(0) {
      var rest := AfterLookup(city, up.geo.value, up, favorites, current, now);
      AfterLookupSpec(city, up.geo.value, up, favorites, current, now);
      assert FetchCity(city, up, favorites, current, now) == Fetched(rest.city, [GeoRequest(city)] + rest.requests);
    }
  }

  /** A lookup whose data has length 0 gives "City not found" after that one
      request. The `weather?q=` endpoint answers with a single object, which
      has no `length`, so for its answers this branch is never taken. */
  lemma FetchCityNotFound(city: string, up: CityUpstream, favorites: seq<string>, current: seq<City>, now: int)
    requires up.geo.Got?
    ensures up.geo.value.length == Some(0) ==>
      var f := FetchCity(city, up, favorites, current, now);
      f.requests == [GeoRequest(city)] && f.city.error == Some(NotFoundMessage) && HasError(f.city)
    ensures up.geo.value.length == None ==> |FetchCity(city, up, favorites, current, now).requests| >= 2
  {
    if up.geo.value.length != Some(0) {
      AfterLookupSpec(city, up.geo.value, up, favorites, current, now);
    }
  }

  /** When all three requests answer, the record has no error, is not stale,
      carries the lookup's name as `displayName` and the forecast readings
      the loop keeps. */
  lemma FetchCityFound(city: string, up: CityUpstream, favorites: seq<string>, current: seq<City>, now: int)
    requires up.geo.Got? && up.geo.value.length != Some(0)
    requires up.current(up.geo.value.coord).Got? && up.forecast(up.geo.value.coord).Got?
    ensures var f := FetchCity(city, up, favorites, current, now);
      var items := up.forecast(up.geo.value.coord).value;
      && |f.requests| == 3
      && !HasError(f.city) && !f.city.stale
      && f.city.displayName == up.geo.value.name
      && f.city.temp == Some(up.current(up.geo.value.coord).value.temp)
      && f.city.forecast == Some(Forecast(DailyOf(items).temps, DailyOf(items).labels))
      && |f.city.forecast.value.temps| <= ForecastDays
  {
    DailyShape(up.forecast(up.geo.value.coord).value);
  }

  /** One record per requested city, in request order. */
  function WeatherPayload(targets: seq<string>, up: string -> CityUpstream, favorites: seq<string>, current: seq<City>, now: int): (r: seq<City>)
    ensures |r| == |targets|
  {
    seq(|targets|, i requires 0 <= i < |targets| => FetchCity(targets[i], up(targets[i]), favorites, current, now).city)
  }

  /** Record `i` is for city `i`, and every flag agrees with the favorites. */
  lemma WeatherPayloadSpec(targets: seq<string>, up: string -> CityUpstream, favorites: seq<string>, current: seq<City>, now: int)
    ensures var r := WeatherPayload(targets, up, favorites, current, now);
      && Names(r) == targets
      && FavoritesAgree(r, favorites)
  {
    var r := WeatherPayload(targets, up, favorites, current, now);
    forall i | 0 <= i < |targets|
      ensures r[i].name == targets[i] && r[i].isFavorite == (r[i].name in favorites)
    {
      FetchCitySpec(targets[i], up(targets[i]), favorites, current, now);
    }
  }

  // ---------------------------------------------------------------------------
  // Reducers (lines 150-219)
  // ---------------------------------------------------------------------------

  function FlipFavorite(c: City): City
  {
    c.(isFavorite := !c.isFavorite)
  }

  function FlipWhere(data: seq<City>, name: string): seq<City>
  {
    Keyed.MapWhere(data, NameOf, name, FlipFavorite)
  }

  /** Toggling keeps each record's flag in agreement with the list, and
      toggling twice restores the records (and the list, for a name that was
      not a favorite). */
  lemma ToggleSpec(data: seq<City>, favorites: seq<string>, name: string)
    ensures FavoritesAgree(data, favorites) ==> FavoritesAgree(FlipWhere(data, name), Keyed.Toggle(favorites, name))
    ensures FlipWhere(FlipWhere(data, name), name) == data
    ensures name !in favorites ==> Keyed.Toggle(Keyed.Toggle(favorites, name), name) == favorites
  {
    Keyed.ToggleSpec(favorites, name);
    Keyed.MapWhereTwice(data, NameOf, name, FlipFavorite);
    if name !in favorites { Keyed.ToggleTwice(favorites, name); }
  }

  /** The refresh merge keeps every flag in agreement with the favorites when
      the merged-in records agree, and leaves every city the payload does not
      name where it was. */
  lemma MergeSpec(data: seq<City>, payload: seq<City>, favorites: seq<string>)
    ensures FavoritesAgree(data, favorites) && FavoritesAgree(payload, favorites) ==>
      FavoritesAgree(Keyed.UpsertAll(data, payload, NameOf), favorites)
    ensures |Keyed.UpsertAll(data, payload, NameOf)| >= |data|
    ensures forall i :: 0 <= i < |data| && data[i].name !in Names(payload) ==>
      Keyed.UpsertAll(data, payload, NameOf)[i] == data[i]
  {
    Keyed.UpsertAllKeeps(data, payload, NameOf);
    var r := Keyed.UpsertAll(data, payload, NameOf);
    if FavoritesAgree(data, favorites) && FavoritesAgree(payload, favorites) {
      Keyed.UpsertAllMembers(data, payload, NameOf);
      forall i | 0 <= i < |r| ensures r[i].isFavorite == (r[i].name in favorites) {
        assert r[i] in r;
      }
    }
    forall i | 0 <= i < |data| && data[i].name !in Names(payload)
      ensures r[i] == data[i]
    {
      assert forall p :: 0 <= p < |payload| ==> payload[p].name != data[i].name;
    }
  }

  /** The weather slice's state; `saved` stands for the
      `favoriteWeatherCities` entry of local storage. */
  class WeatherStore {
    var weatherData: seq<City>
    var loading: bool
    var error: Option<string>
    var favorites: seq<string>
    var saved: seq<string>
    var lastRefresh: Option<int>

    constructor (stored: Option<seq<string>>)
      ensures weatherData == [] && !loading && error == None && lastRefresh == None
      ensures favorites == (if stored.Some? then stored.value else []) && saved == favorites
    {
      weatherData := [];
      loading := false;
      error := None;
      favorites := if stored.Some? then stored.value else [];
      saved := favorites;
      lastRefresh := None;
    }

    method ToggleFavorite(name: string)
      modifies this
      ensures favorites == Keyed.Toggle(old(favorites), name) && saved == favorites
      ensures weatherData == FlipWhere(old(weatherData), name)
      ensures loading == old(loading) && error == old(error) && lastRefresh == old(lastRefresh)
    {
      favorites := Keyed.Toggle(favorites, name);
      weatherData := Keyed.MapWhere(weatherData, NameOf, name, FlipFavorite);
      saved := favorites;
    }

    method Pending(refreshOnly: bool)
      modifies this
      ensures loading == (old(loading) || !refreshOnly) && error == None
      ensures weatherData == old(weatherData) && favorites == old(favorites) && saved == old(saved)
      ensures lastRefresh == old(lastRefresh)
    {
      if !refreshOnly {
        loading := true;
      }
      error := None;
    }

    method Fulfilled(refreshOnly: bool, payload: seq<City>, now: int)
      modifies this
      ensures !loading && lastRefresh == Some(now)
      ensures weatherData == if refreshOnly then Keyed.UpsertAll(old(weatherData), payload, NameOf) else payload
      ensures error == old(error) && favorites == old(favorites) && saved == old(saved)
    {
      loading := false;
      lastRefresh := Some(now);
      if !refreshOnly {
        weatherData := payload;
        return;
      }
      var i := 0;
      while i < |payload|
        invariant 0 <= i <= |payload|
        invariant weatherData == Keyed.UpsertAll(old(weatherData), payload[..i], NameOf)
        invariant !loading && lastRefresh == Some(now)
        invariant error == old(error) && favorites == old(favorites) && saved == old(saved)
      {
        assert payload[..i + 1][..i] == payload[..i];
        var newCity := payload[i];
        var existingIndex := Keyed.FindIndex(weatherData, NameOf, newCity.name);
        if existingIndex >= 0 {
          weatherData := weatherData[existingIndex := newCity];
        } else {
          weatherData := weatherData + [newCity];
        }
        i := i + 1;
      }
      assert payload[..i] == payload;
    }

    /** `rejected`: the payload is `error.response?.data || "Error fetching
        weather data"`. */
    method Rejected(message: string)
      modifies this
      ensures !loading && error == Some(message)
      ensures weatherData == old(weatherData) && favorites == old(favorites) && saved == old(saved)
      ensures lastRefresh == old(lastRefresh)
    {
      loading := false;
      error := Some(message);
    }
  }
}
