/** The weather factor (`Woo_Envios_Weather`): the rain classification of a weather
    report, its description, and the one-hour report cache in front of the provider.
    The provider's answer is an input. */
module Weather {
  import opened Php

  /** Lifetime of a cached report, in seconds. */
  const CacheDuration: int := 3600
  const DefaultLightRain: real := 1.2
  const DefaultHeavyRain: real := 1.5
  /** Rain intensity (mm/h) above which rain counts as heavy. */
  const HeavyRainThreshold: real := 5.0

  /** The parts of a decoded report the plugin reads: whether it has a `weather` entry,
      `weather[0].main`, `weather[0].description` and `rain.1h` (None when absent). */
  datatype WeatherData = WeatherData(hasWeather: bool, main: Option<string>, description: Option<string>,
                                     rain1h: Option<real>)

  /** The configured light and heavy factors (None when the option is unset). */
  datatype RainFactors = RainFactors(light: Option<real>, heavy: Option<real>)

  function Light(f: RainFactors): real { f.light.GetOr(DefaultLightRain) }
  function Heavy(f: RainFactors): real { f.heavy.GetOr(DefaultHeavyRain) }

  predicate IsRain(condition: string) {
    condition == "rain" || condition == "drizzle"
  }

  /** `calculate_rain_multiplier`: rain or drizzle (in any letter case) is heavy above
      5 mm/h and light otherwise, a thunderstorm is always heavy, anything else - or no
      condition at all - leaves the price alone. */
  function RainMultiplier(data: WeatherData, f: RainFactors): (m: real)
    ensures m == 1.0 || m == Light(f) || m == Heavy(f)
    ensures EmptyString(data.main.GetOr("")) ==> m == 1.0
    ensures !EmptyString(data.main.GetOr("")) && Lower(data.main.GetOr("")) == "thunderstorm" ==> m == Heavy(f)
    ensures var condition := Lower(data.main.GetOr(""));
      !EmptyString(data.main.GetOr("")) && !IsRain(condition) && condition != "thunderstorm" ==> m == 1.0
  {
    var main := data.main.GetOr("");
    if EmptyString(main) then 1.0
    else
      var condition := Lower(main);
      if IsRain(condition) then
        if data.rain1h.GetOr(0.0) > HeavyRainThreshold then Heavy(f) else Light(f)
      else if condition == "thunderstorm" then Heavy(f)
      else 1.0
  }

  /** Rain at exactly 5 mm/h, or with no intensity reported, is light; only strictly
      more is heavy. */
  lemma RainThreshold(data: WeatherData, f: RainFactors)
    requires !EmptyString(data.main.GetOr("")) && IsRain(Lower(data.main.GetOr("")))
    ensures data.rain1h.GetOr(0.0) <= HeavyRainThreshold ==> RainMultiplier(data, f) == Light(f)
    ensures data.rain1h.GetOr(0.0) > HeavyRainThreshold ==> RainMultiplier(data, f) == Heavy(f)
    ensures data.rain1h.None? ==> RainMultiplier(data, f) == Light(f)
  {
  }

  /** The condition is compared without regard to letter case. */
  lemma ConditionIgnoresCase(data: WeatherData, other: WeatherData, f: RainFactors)
    requires data.main.Some? && other.main.Some?
    requires !EmptyString(data.main.value) && !EmptyString(other.main.value)
    requires Lower(data.main.value) == Lower(other.main.value) && data.rain1h == other.rain1h
    ensures RainMultiplier(data, f) == RainMultiplier(other, f)
  {
  }

  /** With light <= heavy, more rain never makes delivery cheaper. */
  lemma RainMonotone(data: WeatherData, wetter: WeatherData, f: RainFactors)
    requires Light(f) <= Heavy(f)
    requires data.main == wetter.main && data.rain1h.GetOr(0.0) <= wetter.rain1h.GetOr(0.0)
    ensures RainMultiplier(data, f) <= RainMultiplier(wetter, f)
  {
  }

  /** With the default factors the multiplier is one of 1.0, 1.2 and 1.5, never a
      discount. */
  lemma DefaultFactorsRange(data: WeatherData)
    ensures var m := RainMultiplier(data, RainFactors(None, None));
      (m == 1.0 || m == 1.2 || m == 1.5) && m >= 1.0
  {
  }

  /** `get_weather_description`: "" when missing (or PHP-empty), otherwise the text with
      its first letter upper-cased. */
  function Description(data: WeatherData): (r: string)
    ensures EmptyString(data.description.GetOr("")) ==> r == ""
    ensures !EmptyString(data.description.GetOr("")) ==>
      var d := data.description.value;
      |r| == |d| && r[0] == UpperChar(d[0]) && r[1..] == d[1..]
  {
    var d := data.description.GetOr("");
    if EmptyString(d) then "" else UcFirst(d)
  }

  // ------------------------------------------------------------ report cache

  /** A cached report and the last moment it is served. */
  datatype WeatherEntry = WeatherEntry(data: WeatherData, expiresAt: int)

  /** The provider's answer: a transport error, or a body that is a JSON object
      (`Some`) or not (`None`). */
  datatype Fetch = FetchError | Fetched(body: Option<WeatherData>)

  /** The cache key: the point asked about (the source hashes "lat|lng"). */
  type Point = (real, real)

  /** A report, the cache afterwards, and whether the provider was asked. */
  datatype Lookup = Lookup(data: Option<WeatherData>, cache: map<Point, WeatherEntry>, fetched: bool)

  predicate Live(cache: map<Point, WeatherEntry>, key: Point, now: int) {
    key in cache && now <= cache[key].expiresAt
  }

  /** A body is used only when it decodes to an object with a `weather` entry. */
  predicate Usable(fetch: Fetch) {
    fetch.Fetched? && fetch.body.Some? && fetch.body.value.hasWeather
  }

  /** `get_current_weather`. */
  function CurrentWeather(cache: map<Point, WeatherEntry>, key: Point, now: int, fetch: Fetch): (l: Lookup)
    ensures l.fetched <==> !Live(cache, key, now)
    ensures l.data.Some? ==> l.data.value.hasWeather || Live(cache, key, now)
  {
    if Live(cache, key, now) then Lookup(Some(cache[key].data), cache, false)
    else if Usable(fetch) then
      Lookup(Some(fetch.body.value), cache[key := WeatherEntry(fetch.body.value, now + CacheDuration)], true)
    else Lookup(None, cache, true)
  }

  /** A live cached report is served as stored, without asking the provider. */
  lemma CachedReportServed(cache: map<Point, WeatherEntry>, key: Point, now: int, fetch: Fetch)
    requires Live(cache, key, now)
    ensures CurrentWeather(cache, key, now, fetch) == Lookup(Some(cache[key].data), cache, false)
  {
  }

  /** A failed request or an answer without `weather` gives nothing and is not cached. */
  lemma InvalidAnswerNotCached(cache: map<Point, WeatherEntry>, key: Point, now: int, fetch: Fetch)
    requires !Live(cache, key, now) && !Usable(fetch)
    ensures CurrentWeather(cache, key, now, fetch) == Lookup(None, cache, true)
  {
  }

  /** A usable answer is served for the next hour without another request. */
  lemma FetchThenServed(cache: map<Point, WeatherEntry>, key: Point, now: int, fetch: Fetch, later: int, again: Fetch)
    requires !Live(cache, key, now) && Usable(fetch) && now <= later <= now + CacheDuration
    ensures var first := CurrentWeather(cache, key, now, fetch);
      var second := CurrentWeather(first.cache, key, later, again);
      first.data == Some(fetch.body.value) && second == Lookup(first.data, first.cache, false)
  {
  }

  /** `get_weather_multiplier` as a function of the key, the factors and a lookup. */
  function WeatherMultiplier(apiKey: string, f: RainFactors, l: Lookup): (m: real)
    ensures EmptyString(apiKey) || l.data.None? ==> m == 1.0
    ensures m == 1.0 || m == Light(f) || m == Heavy(f)
  {
    if EmptyString(apiKey) then 1.0
    else if l.data.None? then 1.0
    else RainMultiplier(l.data.value, f)
  }

  class WeatherService {
    var apiKey: string
    var factors: RainFactors
    /** The `woo_envios_weather_*` transients. */
    var cache: map<Point, WeatherEntry>
    /** Requests sent to the provider so far. */
    var fetches: nat

    constructor(apiKey: string, factors: RainFactors)
      ensures this.apiKey == apiKey && this.factors == factors && cache == map[] && fetches == 0
    {
      this.apiKey := apiKey;
      this.factors := factors;
      cache := map[];
      fetches := 0;
    }

    /** `get_current_weather` for the point (lat, lng); `fetch` is the provider's answer
        if it is asked. */
    method GetCurrentWeather(lat: real, lng: real, now: int, fetch: Fetch) returns (data: Option<WeatherData>)
      modifies this
      ensures var l := CurrentWeather(old(cache), (lat, lng), now, fetch);
        data == l.data && cache == l.cache && fetches == old(fetches) + (if l.fetched then 1 else 0)
      ensures apiKey == old(apiKey) && factors == old(factors)
    {
      var key := (lat, lng);
      if key in cache && now <= cache[key].expiresAt {
        return Some(cache[key].data);
      }
      fetches := fetches + 1;
      if fetch.FetchError? {
        return None;
      }
      if fetch.body.None? || !fetch.body.value.hasWeather {
        return None;
      }
      cache := cache[key := WeatherEntry(fetch.body.value, now + CacheDuration)];
      return Some(fetch.body.value);
    }

    /** `get_weather_multiplier`: without a key, 1.0 and no request; otherwise the rain
        factor of the current report, or 1.0 when there is none. */
    method GetWeatherMultiplier(lat: real, lng: real, now: int, fetch: Fetch) returns (m: real)
      modifies this
      ensures EmptyString(apiKey) ==> m == 1.0 && cache == old(cache) && fetches == old(fetches)
      ensures !EmptyString(apiKey) ==>
        var l := CurrentWeather(old(cache), (lat, lng), now, fetch);
        m == WeatherMultiplier(apiKey, factors, l) && cache == l.cache
        && fetches == old(fetches) + (if l.fetched then 1 else 0)
      ensures apiKey == old(apiKey) && factors == old(factors)
    {
      if EmptyString(apiKey) {
        return 1.0;
      }
      var data := GetCurrentWeather(lat, lng, now, fetch);
      if data.None? {
        return 1.0;
      }
      m := RainMultiplier(data.value, factors);
    }

    /** `clear_cache`: every cached report is dropped. */
    method ClearCache()
      modifies this
      ensures cache == map[]
      ensures apiKey == old(apiKey) && factors == old(factors) && fetches == old(fetches)
    {
      cache := map[];
    }
  }
}
