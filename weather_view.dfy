/** The display helpers of the weather page (components/WeatherDetails.jsx):
    the relative "last refreshed" text (the crypto page has the same helper),
    the favorites/others split of the city cards, the list of cities a
    refresh could not update, and the record a search confirms. */
module WeatherView {
  import opened Common
  import Keyed
  import opened WeatherSlice

  // ---------------------------------------------------------------------------
  // Relative refresh time
  // ---------------------------------------------------------------------------

  datatype TimeUnit = Seconds | Minutes | Hours

  /** What `getTimeSinceRefresh` reports: nothing yet, or a count of units. */
  datatype Since = Never | Ago(count: int, unit: TimeUnit)

  function UnitSeconds(u: TimeUnit): nat
  {
    match u
    case Seconds => 1
    case Minutes => 60
    case Hours => 3600
  }

  function UnitWord(u: TimeUnit): string
  {
    match u
    case Seconds => "seconds"
    case Minutes => "minutes"
    case Hours => "hours"
  }

  /** `Math.floor((now - lastRefreshDate) / 1000)` on times in milliseconds;
      Dafny's division by a positive constant rounds down, as `Math.floor`
      does, also for a refresh time later than `now`. */
  function ElapsedSeconds(last: int, now: int): (s: int)
    ensures s * 1000 <= now - last < s * 1000 + 1000
  {
    (now - last) / 1000
  }

  /** The choice of unit and count. `lastRefresh` is the stored refresh time
      in milliseconds, `None` when it is unset. */
  function TimeSince(lastRefresh: Option<int>, now: int): Since
  {
    if lastRefresh.None? then Never
    else
      var s := ElapsedSeconds(lastRefresh.value, now);
      if s < 60 then Ago(s, Seconds)
      else if s < 3600 then Ago(s / 60, Minutes)
      else Ago(s / 3600, Hours)
  }

  function SinceText(r: Since): string
  {
    match r
    case Never => "Never"
    case Ago(n, u) => IntToString(n) + " " + UnitWord(u) + " ago"
  }

  /** `getTimeSinceRefresh()`. */
  function TimeSinceRefresh(lastRefresh: Option<int>, now: int): string
  {
    SinceText(TimeSince(lastRefresh, now))
  }

  /** The count is the elapsed whole seconds rounded down to the unit, so the
      elapsed time lies between `count` and `count + 1` units; seconds are
      used below one minute (a negative count when the refresh time is ahead
      of the clock), minutes below one hour and hours from then on. */
  lemma TimeSinceSpec(last: int, now: int)
    ensures var s := ElapsedSeconds(last, now);
      var r := TimeSince(Some(last), now);
      && r.Ago?
      && r.count * UnitSeconds(r.unit) <= s < (r.count + 1) * UnitSeconds(r.unit)
      && (r.unit == Seconds <==> s < 60)
      && (r.unit == Hours <==> s >= 3600)
      && (r.unit == Minutes ==> 1 <= r.count < 60)
      && (r.unit == Hours ==> r.count >= 1)
    ensures TimeSince(None, now) == Never
  {
  }

  /** The text is "Never" for an unset refresh time; otherwise the count's
      decimal numeral, which reads back as the count, then the unit and
      "ago". */
  lemma TimeSinceRefreshText(lastRefresh: Option<int>, now: int)
    ensures lastRefresh.None? ==> TimeSinceRefresh(lastRefresh, now) == "Never"
    ensures lastRefresh.Some? && now >= lastRefresh.value ==>
      var r := TimeSince(lastRefresh, now);
      && r.count >= 0
      && TimeSinceRefresh(lastRefresh, now) == NatToString(r.count) + " " + UnitWord(r.unit) + " ago"
      && ParseNat(NatToString(r.count)) == r.count
  {
    if lastRefresh.Some? && now >= lastRefresh.value {
      var r := TimeSince(lastRefresh, now);
      TimeSinceSpec(lastRefresh.value, now);
      ParseNatToString(r.count);
    }
  }

  // ---------------------------------------------------------------------------
  // Favorites and the other cities
  // ---------------------------------------------------------------------------

  function FavoriteWeather(data: seq<City>): (r: seq<City>)
    ensures forall c :: c in r ==> c in data && c.isFavorite
  {
    Filter(data, (c: City) => c.isFavorite)
  }

  function OtherWeather(data: seq<City>): (r: seq<City>)
    ensures forall c :: c in r ==> c in data && !c.isFavorite
  {
    Filter(data, (c: City) => !c.isFavorite)
  }

  /** The two lists split the cities: every record is in exactly one of them,
      as often as in `weatherData`, and each list keeps the order the
      records have in `weatherData`. */
  lemma WeatherSplit(data: seq<City>)
    ensures multiset(FavoriteWeather(data)) + multiset(OtherWeather(data)) == multiset(data)
    ensures |FavoriteWeather(data)| + |OtherWeather(data)| == |data|
    ensures forall c :: c in data ==> (c in FavoriteWeather(data) <==> c.isFavorite)
    ensures forall a, b :: FavoriteWeather(a + b) == FavoriteWeather(a) + FavoriteWeather(b)
    ensures forall a, b :: OtherWeather(a + b) == OtherWeather(a) + OtherWeather(b)
  {
    var p := (c: City) => c.isFavorite;
    var q := (c: City) => !c.isFavorite;
    FilterPartition(data, p, q);
    assert |multiset(FavoriteWeather(data))| + |multiset(OtherWeather(data))| == |multiset(data)|;
    forall c | c in data && c.isFavorite ensures c in FavoriteWeather(data) {
      FilterKeeps(data, p, c);
    }
    forall a, b ensures FavoriteWeather(a + b) == FavoriteWeather(a) + FavoriteWeather(b) {
      FilterAppend(a, b, p);
    }
    forall a, b ensures OtherWeather(a + b) == OtherWeather(a) + OtherWeather(b) {
      FilterAppend(a, b, q);
    }
  }

  // ---------------------------------------------------------------------------
  // Cities a refresh could not update
  // ---------------------------------------------------------------------------

  /** `payload.filter(city => city.error).map(city => city.name)`. */
  function FailedCities(payload: seq<City>): (r: seq<string>)
    ensures |r| <= |payload|
  {
    Names(Filter(payload, HasError))
  }

  /** A name is listed exactly when some record under it has an error; the
      names come in payload order, and the list is empty exactly when no
      record has an error. */
  lemma FailedCitiesSpec(payload: seq<City>)
    ensures forall n :: n in FailedCities(payload) ==> exists c :: c in payload && HasError(c) && c.name == n
    ensures forall c :: c in payload && HasError(c) ==> c.name in FailedCities(payload)
    ensures FailedCities(payload) == [] <==> forall c :: c in payload ==> !HasError(c)
    ensures forall a, b :: FailedCities(a + b) == FailedCities(a) + FailedCities(b)
  {
    var kept := Filter(payload, HasError);
    forall n | n in FailedCities(payload) ensures exists c :: c in payload && HasError(c) && c.name == n {
      var k :| 0 <= k < |kept| && kept[k].name == n;
      assert kept[k] in kept;
    }
    forall c | c in payload && HasError(c) ensures c.name in FailedCities(payload) {
      FilterKeeps(payload, HasError, c);
      var k :| 0 <= k < |kept| && kept[k] == c;
      assert FailedCities(payload)[k] == c.name;
    }
    if kept != [] {
      assert kept[0] in kept;
    }
    forall a, b ensures FailedCities(a + b) == FailedCities(a) + FailedCities(b) {
      FilterAppend(a, b, HasError);
    }
  }

  /** A refresh whose every city answered reports no failures. */
  lemma RefreshWithoutFailures(targets: seq<string>, up: string -> CityUpstream, favorites: seq<string>, current: seq<City>, now: int)
    requires forall i :: 0 <= i < |targets| ==>
      && up(targets[i]).geo.Got? && up(targets[i]).geo.value.length != Some(0)
      && up(targets[i]).current(up(targets[i]).geo.value.coord).Got?
      && up(targets[i]).forecast(up(targets[i]).geo.value.coord).Got?
    ensures FailedCities(WeatherPayload(targets, up, favorites, current, now)) == []
  {
    var r := WeatherPayload(targets, up, favorites, current, now);
    forall i | 0 <= i < |r| ensures !HasError(r[i]) {
      FetchCityFound(targets[i], up(targets[i]), favorites, current, now);
    }
    FailedCitiesSpec(r);
  }

  // ---------------------------------------------------------------------------
  // Search confirmation
  // ---------------------------------------------------------------------------

  predicate IsSpace(c: char)
  {
    c == ' ' || c == '\t' || c == '\n' || c == '\r'
  }

  function TrimStart(s: string): (r: string)
    ensures |r| <= |s| && r == s[|s| - |r|..]
    ensures forall i :: 0 <= i < |s| - |r| ==> IsSpace(s[i])
    ensures r != [] ==> !IsSpace(r[0])
  {
    if s != [] && IsSpace(s[0]) then TrimStart(s[1..]) else s
  }

  function TrimEnd(s: string): (r: string)
    ensures |r| <= |s| && r == s[..|r|]
    ensures forall i :: |r| <= i < |s| ==> IsSpace(s[i])
    ensures r != [] ==> !IsSpace(r[|r| - 1])
  {
    if s != [] && IsSpace(s[|s| - 1]) then TrimEnd(s[..|s| - 1]) else s
  }

  /** How much leading white space `s` has. */
  function TrimOffset(s: string): (n: nat)
    ensures n <= |s|
  {
    |s| - |TrimStart(s)|
  }

  /** `s.trim()`: the text between the leading and the trailing white space;
      it neither starts nor ends with white space, and only white space was
      cut off. */
  function Trim(s: string): (r: string)
    ensures r != [] ==> !IsSpace(r[0]) && !IsSpace(r[|r| - 1])
    ensures TrimOffset(s) + |r| <= |s| && r == s[TrimOffset(s)..TrimOffset(s) + |r|]
    ensures forall k :: 0 <= k < TrimOffset(s) ==> IsSpace(s[k])
    ensures forall k :: TrimOffset(s) + |r| <= k < |s| ==> IsSpace(s[k])
  {
    var t := TrimStart(s);
    var r := TrimEnd(t);
    var i := |s| - |t|;
    assert r == s[i..i + |r|];
    r
  }

  /** Trimming twice trims nothing more. */
  lemma TrimIdempotent(s: string)
    ensures Trim(Trim(s)) == Trim(s)
  {
    var r := Trim(s);
    if r != [] {
      assert TrimStart(r) == r;
      assert TrimEnd(r) == r;
    }
  }

  function LowerName(c: City): string
  {
    Lower(c.name)
  }

  /** `payload.find(c => c.name.toLowerCase() === input.trim().toLowerCase())`. */
  function SearchMatch(payload: seq<City>, input: string): (r: Option<City>)
    ensures r.None? ==> forall j :: 0 <= j < |payload| ==> Lower(payload[j].name) != Lower(Trim(input))
    ensures r.Some? ==> exists i :: (0 <= i < |payload| && payload[i] == r.value
      && Lower(payload[i].name) == Lower(Trim(input))
      && forall j :: 0 <= j < i ==> Lower(payload[j].name) != Lower(Trim(input)))
  {
    var i := Keyed.FindIndex(payload, LowerName, Lower(Trim(input)));
    if i >= 0 then Some(payload[i]) else None
  }

  /** `cityData.displayName || cityData.name`: the name the lookup returned,
      unless it is missing or empty. */
  function DisplayName(c: City): (r: string)
    ensures c.displayName.Some? && c.displayName.value != "" ==> r == c.displayName.value
    ensures c.displayName.None? || c.displayName.value == "" ==> r == c.name
  {
    if c.displayName.Some? && c.displayName.value != "" then c.displayName.value else c.name
  }

  /** Which confirmation a search shows. */
  datatype SearchToast = NotFoundToast | AddedToast(text: string) | NoToast

  function SearchToastOf(payload: seq<City>, input: string): SearchToast
  {
    var m := SearchMatch(payload, input);
    if m.Some? && HasError(m.value) then NotFoundToast
    else if m.Some? then AddedToast(DisplayName(m.value))
    else NoToast
  }

  /** A payload whose first record has the searched name yields that record. */
  lemma SearchHead(payload: seq<City>, input: string)
    requires |payload| > 0 && Lower(payload[0].name) == Lower(Trim(input))
    ensures SearchMatch(payload, input) == Some(payload[0])
  {
    Keyed.FindIndexAt(payload, LowerName, Lower(Trim(input)), 0);
  }

  /** A search for a city outside the defaults puts its record first. */
  lemma NewSearchFirst(searched: string, current: seq<City>, favorites: seq<string>, defaults: seq<string>,
                       up: string -> CityUpstream, now: int)
    requires searched != "" && searched !in defaults
    ensures var p := WeatherPayload(Targets(false, searched, current, favorites, defaults), up, favorites, current, now);
      |p| > 0 && p[0] == FetchCity(searched, up(searched), favorites, current, now).city
  {
    var targets := Targets(false, searched, current, favorites, defaults);
    CityTargetsSpec(false, searched, current, favorites, defaults);
    assert targets[0] == targets[..|BaseCities(false, searched, current, defaults)|][0];
  }

  /** Searching a new city (trimmed, not one of the defaults) whose three
      requests all answer confirms it under the name the lookup returned,
      or under the text searched for when the lookup gave none. */
  lemma SearchConfirmsNewCity(searched: string, current: seq<City>, favorites: seq<string>, defaults: seq<string>,
                              up: string -> CityUpstream, now: int)
    requires searched != "" && searched !in defaults && Trim(searched) == searched
    requires var u := up(searched);
      && u.geo.Got? && u.geo.value.length != Some(0)
      && u.current(u.geo.value.coord).Got? && u.forecast(u.geo.value.coord).Got?
    ensures var targets := Targets(false, searched, current, favorites, defaults);
      var payload := WeatherPayload(targets, up, favorites, current, now);
      var name := up(searched).geo.value.name;
      SearchToastOf(payload, searched) ==
        AddedToast(if name.Some? && name.value != "" then name.value else searched)
  {
    var payload := WeatherPayload(Targets(false, searched, current, favorites, defaults), up, favorites, current, now);
    NewSearchFirst(searched, current, favorites, defaults, up, now);
    FetchCityFound(searched, up(searched), favorites, current, now);
    FetchCitySpec(searched, up(searched), favorites, current, now);
    SearchHead(payload, searched);
  }

  /** A search that fails at the lookup shows the "City not found" toast. */
  lemma SearchReportsFailedLookup(searched: string, current: seq<City>, favorites: seq<string>, defaults: seq<string>,
                                  up: string -> CityUpstream, now: int)
    requires searched != "" && searched !in defaults && Trim(searched) == searched
    requires up(searched).geo.Got? && up(searched).geo.value.length == Some(0)
    ensures var targets := Targets(false, searched, current, favorites, defaults);
      SearchToastOf(WeatherPayload(targets, up, favorites, current, now), searched) == NotFoundToast
  {
    var payload := WeatherPayload(Targets(false, searched, current, favorites, defaults), up, favorites, current, now);
    NewSearchFirst(searched, current, favorites, defaults, up, now);
    FetchCityNotFound(searched, up(searched), favorites, current, now);
    FetchCitySpec(searched, up(searched), favorites, current, now);
    SearchHead(payload, searched);
  }
}
