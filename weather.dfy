/** The weather lookup of the core (`NixAICore.get_weather`) with its
    30-minute answer cache, and the description-to-icon ladder
    (`NixAICore._get_weather_icon`). The HTTP call is a parameter: what the
    provider would answer for this request. Timestamps are microseconds, the
    resolution of Python's `datetime`. */
module Weather {
  import opened Text
  import opened Replies

  const Minute: int := 60 * 1000000

  /** `cache_duration = timedelta(minutes=30)`. */
  const CacheDuration: int := 30 * Minute

  /** One cache entry: when it was stored and the formatted answer. */
  datatype CacheEntry = CacheEntry(cachedAt: int, text: string)

  type Cache = map<string, CacheEntry>

  /** What the provider call yields: an HTTP status with the formatted
      summary of its body (used only on status 200), or an exception. */
  datatype ProviderResult =
    | Response(status: int, formatted: string)
    | TransportError(detail: string)

  /** `WeatherConfig`; only the API key influences the logic. */
  datatype WeatherConfig = WeatherConfig(apiKey: string, baseUrl: string, units: string, lang: string)

  const DefaultConfig: WeatherConfig :=
    WeatherConfig("", "http://api.openweathermap.org/data/2.5/weather", "metric", "ru")

  /** A cached entry is still served while it is younger than the cache duration. */
  predicate Fresh(e: CacheEntry, now: int) {
    now - e.cachedAt < CacheDuration
  }

  predicate ServedFromCache(cache: Cache, city: string, now: int) {
    Lower(city) in cache && Fresh(cache[Lower(city)], now)
  }

  /** The provider is contacted exactly when no fresh entry exists and a key is configured. */
  predicate CallsProvider(cache: Cache, apiKey: string, city: string, now: int) {
    !ServedFromCache(cache, city, now) && apiKey != ""
  }

  predicate IsSuccess(p: ProviderResult) {
    p.Response? && p.status == 200
  }

  /** `get_weather(city)`: the answer text and the cache afterwards. */
  function GetWeather(cache: Cache, apiKey: string, city: string, now: int, provider: ProviderResult)
    : (r: (string, Cache))
    ensures ServedFromCache(cache, city, now) ==> r == (cache[Lower(city)].text, cache)
    ensures !ServedFromCache(cache, city, now) && apiKey == "" ==> r == (NoApiKeyText, cache)
    ensures r.1 != cache ==> CallsProvider(cache, apiKey, city, now) && IsSuccess(provider)
    ensures CallsProvider(cache, apiKey, city, now) && IsSuccess(provider) ==>
              r.0 == provider.formatted && r.1 == cache[Lower(city) := CacheEntry(now, r.0)]
    ensures CallsProvider(cache, apiKey, city, now) && provider.Response? && provider.status == 404 ==>
              r.0 == CityNotFoundText(city)
    ensures CallsProvider(cache, apiKey, city, now) && provider.Response? && provider.status !in {200, 404} ==>
              r.0 == StatusErrorText(provider.status)
    ensures CallsProvider(cache, apiKey, city, now) && provider.TransportError? ==>
              r.0 == FailureText(provider.detail)
  {
    var cityLower := Lower(city);
    if cityLower in cache && now - cache[cityLower].cachedAt < CacheDuration then
      (cache[cityLower].text, cache)
    else if apiKey == "" then
      (NoApiKeyText, cache)
    else
      match provider
      case Response(status, formatted) =>
        if status == 200 then (formatted, cache[cityLower := CacheEntry(now, formatted)])
        else if status == 404 then (CityNotFoundText(city), cache)
        else (StatusErrorText(status), cache)
      case TransportError(detail) => (FailureText(detail), cache)
  }

  /** A fresh entry is answered without the provider: its answer does not depend on it. */
  lemma CacheHitIgnoresProvider(cache: Cache, apiKey: string, city: string, now: int,
                                p: ProviderResult, q: ProviderResult)
    requires ServedFromCache(cache, city, now)
    ensures GetWeather(cache, apiKey, city, now, p) == GetWeather(cache, apiKey, city, now, q)
  {
  }

  /** Two lookups of the same city (in any letter case) within 30 minutes: the
      first stores the answer, the second returns the same text from the cache
      whatever the provider would say. */
  lemma SecondLookupWithinWindowIsCached(cache: Cache, apiKey: string, city: string, city2: string,
                                         t: int, t2: int, p: ProviderResult, p2: ProviderResult)
    requires CallsProvider(cache, apiKey, city, t) && IsSuccess(p)
    requires Lower(city2) == Lower(city) && t2 - t < CacheDuration
    ensures var (text, cache2) := GetWeather(cache, apiKey, city, t, p);
            GetWeather(cache2, apiKey, city2, t2, p2) == (text, cache2)
  {
  }

  /** Once 30 minutes have passed the entry is stale and the provider is asked again. */
  lemma LookupAfterWindowRequeries(cache: Cache, apiKey: string, city: string, city2: string,
                                   t: int, t2: int, p: ProviderResult, p2: ProviderResult)
    requires CallsProvider(cache, apiKey, city, t) && IsSuccess(p)
    requires Lower(city2) == Lower(city) && t2 - t >= CacheDuration
    ensures var cache2 := GetWeather(cache, apiKey, city, t, p).1;
            CallsProvider(cache2, apiKey, city2, t2)
  {
  }

  /** A 404, another status or a failure leaves the cache as it was, so the
      next lookup of that city contacts the provider again. */
  lemma FailedLookupIsNotCached(cache: Cache, apiKey: string, city: string, t: int, t2: int,
                                p: ProviderResult)
    requires CallsProvider(cache, apiKey, city, t) && !IsSuccess(p)
    requires Lower(city) in cache ==> cache[Lower(city)].cachedAt <= t
    requires t <= t2
    ensures GetWeather(cache, apiKey, city, t, p).1 == cache
    ensures CallsProvider(GetWeather(cache, apiKey, city, t, p).1, apiKey, city, t2)
  {
  }

  /** `_get_weather_icon(description)`: the first keyword of the ladder found in
      the lower-cased description decides the icon. */
  function WeatherIcon(description: string): (r: string)
    ensures var d := Lower(description);
            && (r == RainIcon <==> Contains(d, "дождь"))
            && (r == SnowIcon <==> !Contains(d, "дождь") && Contains(d, "снег"))
            && (r == CloudIcon <==> !Contains(d, "дождь") && !Contains(d, "снег") && Contains(d, "облачно"))
            && (r == ClearIcon <==>
                  !Contains(d, "дождь") && !Contains(d, "снег") && !Contains(d, "облачно") &&
                  (Contains(d, "ясно") || Contains(d, "солнце")))
            && (r == FogIcon <==>
                  !Contains(d, "дождь") && !Contains(d, "снег") && !Contains(d, "облачно") &&
                  !Contains(d, "ясно") && !Contains(d, "солнце") && Contains(d, "туман"))
            && (r == StormIcon <==>
                  !Contains(d, "дождь") && !Contains(d, "снег") && !Contains(d, "облачно") &&
                  !Contains(d, "ясно") && !Contains(d, "солнце") && !Contains(d, "туман") &&
                  Contains(d, "гроза"))
            && (r == DefaultIcon <==>
                  !Contains(d, "дождь") && !Contains(d, "снег") && !Contains(d, "облачно") &&
                  !Contains(d, "ясно") && !Contains(d, "солнце") && !Contains(d, "туман") &&
                  !Contains(d, "гроза"))
  {
    var d := Lower(description);
    FogSecondKeywordRedundant(d);
    if Contains(d, "дождь") then RainIcon
    else if Contains(d, "снег") then SnowIcon
    else if Contains(d, "облачно") then CloudIcon
    else if Contains(d, "ясно") || Contains(d, "солнце") then ClearIcon
    else if Contains(d, "туман") || Contains(d, "тумано") then FogIcon
    else if Contains(d, "гроза") then StormIcon
    else DefaultIcon
  }

  /** The second fog keyword can never decide: "тумано" always contains "туман". */
  lemma FogSecondKeywordRedundant(d: string)
    ensures Contains(d, "тумано") ==> Contains(d, "туман")
  {
    ContainsIffOccurs(d, "тумано");
    if !Contains(d, "тумано") {
      return;
    }
    var i :| OccursAt(d, "тумано", i);
    assert d[i..i + 5] == d[i..i + 6][..5] == "туман";
    assert OccursAt(d, "туман", i);
    ContainsIffOccurs(d, "туман");
  }
}
