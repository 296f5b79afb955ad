/** The geocoding client (`Woo_Envios_Google_Maps`): API-key check, circuit breaker,
    address cache with expiry, the bounded retry loop over provider answers, the
    mapping of address components, and CEP validation. The provider is a sequence
    of answers, one per request; the clock is an input. */
module GoogleMaps {
  import opened Php

  const MaxConsecutiveFailures: nat := 5
  const MaxRetries: nat := 3
  /** Default cache lifetime: 30 days, in seconds. */
  const DefaultCacheTtl: int := 30 * 86400
  const DefaultErrorMessage: string := "Erro ao validar endereço."

  /** Coordinates used while the circuit breaker is open (Uberlândia, MG). */
  const DefaultLatitude: real := -18.911
  const DefaultLongitude: real := -48.262

  // ------------------------------------------------------------ API key

  /** `is_configured` / `validate_api_key_format`: a non-empty key of exactly 39
      characters that starts with "AIza". */
  predicate ValidApiKey(key: string) {
    !EmptyString(key) && |key| == 39 && StartsWith(key, "AIza")
  }

  /** The emptiness test is subsumed: the format alone decides. */
  lemma ValidApiKeyFormat(key: string)
    ensures ValidApiKey(key) <==> |key| == 39 && key[..4] == "AIza"
  {
  }

  // ------------------------------------------------------------ results

  /** A provider address component. */
  datatype AddressComponent = AddressComponent(types: seq<string>, longName: string, shortName: string)

  /** The first result of a provider answer. */
  datatype ProviderResult = ProviderResult(
    latitude: real, longitude: real, formattedAddress: string,
    components: seq<AddressComponent>, placeId: string)

  /** One provider answer: a transport failure, or a decoded body. A missing
      `status` or `error_message` is "". */
  datatype Response = NetworkError | Reply(status: string, errorMessage: string, results: seq<ProviderResult>)

  /** What `geocode_address` returns on success (or as the fallback). */
  datatype GeoResult = GeoResult(
    latitude: real, longitude: real, formattedAddress: string,
    components: map<string, string>, placeId: string, isFallback: bool)

  datatype GeoError = NotConfigured | Transport | RateLimit | GeocodeFailed(message: string)
                    | NoResults | FallbackFailed | InvalidCep

  datatype Geocoded = Located(place: GeoResult) | Failed(error: GeoError)

  /** `get_fallback_coordinates`: the default point when its constants are defined. */
  function Fallback(defined: bool): (r: Geocoded)
    ensures defined ==> r.Located? && r.place.isFallback && r.place.latitude == DefaultLatitude
                        && r.place.longitude == DefaultLongitude && r.place.components == map[]
    ensures !defined ==> r == Failed(FallbackFailed)
  {
    if defined then Located(GeoResult(DefaultLatitude, DefaultLongitude, "Uberlândia, MG, Brasil", map[], "", true))
    else Failed(FallbackFailed)
  }

  // ------------------------------------------------------------ address components

  const ComponentKeys: set<string> := {"street_number", "route", "neighborhood", "city", "state", "state_code", "country", "postal_code"}

  function EmptyComponents(): (m: map<string, string>)
    ensures m.Keys == ComponentKeys
    ensures forall k :: k in m ==> m[k] == ""
  {
    map["street_number" := "", "route" := "", "neighborhood" := "", "city" := "",
        "state" := "", "state_code" := "", "country" := "", "postal_code" := ""]
  }

  /** One pass of the foreach in `parse_address_components`: the first matching type
      in the if/elseif chain decides the one field this component writes. */
  function ApplyComponent(parsed: map<string, string>, c: AddressComponent): map<string, string> {
    if "street_number" in c.types then parsed["street_number" := c.longName]
    else if "route" in c.types then parsed["route" := c.longName]
    else if "sublocality" in c.types || "sublocality_level_1" in c.types then parsed["neighborhood" := c.longName]
    else if "administrative_area_level_2" in c.types then parsed["city" := c.longName]
    else if "administrative_area_level_1" in c.types then parsed["state" := c.longName]["state_code" := c.shortName]
    else if "country" in c.types then parsed["country" := c.longName]
    else if "postal_code" in c.types then parsed["postal_code" := c.longName]
    else parsed
  }

  /** `parse_address_components`, as a function: components applied in order. */
  function ParsedComponents(components: seq<AddressComponent>): (m: map<string, string>)
    ensures m.Keys == ComponentKeys
    decreases |components|
  {
    if components == [] then EmptyComponents()
    else ApplyComponent(ParsedComponents(components[..|components| - 1]), components[|components| - 1])
  }

  /** The loop of `parse_address_components`. */
  method ParseAddressComponents(components: seq<AddressComponent>) returns (parsed: map<string, string>)
    ensures parsed == ParsedComponents(components)
    ensures parsed.Keys == ComponentKeys
  {
    parsed := EmptyComponents();
    var i := 0;
    while i < |components|
      invariant 0 <= i <= |components|
      invariant parsed == ParsedComponents(components[..i])
    {
      var component := components[i];
      var types := component.types;
      assert components[..i + 1][..i] == components[..i];
      if "street_number" in types {
        parsed := parsed["street_number" := component.longName];
      } else if "route" in types {
        parsed := parsed["route" := component.longName];
      } else if "sublocality" in types || "sublocality_level_1" in types {
        parsed := parsed["neighborhood" := component.longName];
      } else if "administrative_area_level_2" in types {
        parsed := parsed["city" := component.longName];
      } else if "administrative_area_level_1" in types {
        parsed := parsed["state" := component.longName];
        parsed := parsed["state_code" := component.shortName];
      } else if "country" in types {
        parsed := parsed["country" := component.longName];
      } else if "postal_code" in types {
        parsed := parsed["postal_code" := component.longName];
      }
      i := i + 1;
    }
    assert components[..i] == components;
  }

  /** The type priority as a table: the types that select each field, highest first. */
  const FieldPriority: seq<(seq<string>, string)> := [
    (["street_number"], "street_number"),
    (["route"], "route"),
    (["sublocality", "sublocality_level_1"], "neighborhood"),
    (["administrative_area_level_2"], "city"),
    (["administrative_area_level_1"], "state"),
    (["country"], "country"),
    (["postal_code"], "postal_code")
  ]

  /** Whether two lists of types have one in common. */
  predicate Shares(selectors: seq<string>, types: seq<string>) {
    exists t :: t in selectors && t in types
  }

  /** The field of the first priority row, from row i on, that shares a type with the
      component. */
  function TargetFrom(types: seq<string>, i: nat): Option<string>
    decreases |FieldPriority| - i
  {
    if i >= |FieldPriority| then None
    else if Shares(FieldPriority[i].0, types) then Some(FieldPriority[i].1)
    else TargetFrom(types, i + 1)
  }

  function TargetField(types: seq<string>): Option<string> {
    TargetFrom(types, 0)
  }

  /** Row i of the table is chosen exactly when one of its types is present. */
  lemma SharesRow(types: seq<string>, i: nat)
    requires i < |FieldPriority|
    ensures Shares(FieldPriority[i].0, types) <==> exists j :: 0 <= j < |FieldPriority[i].0| && FieldPriority[i].0[j] in types
  {
    if Shares(FieldPriority[i].0, types) {
      var t :| t in FieldPriority[i].0 && t in types;
      var j :| 0 <= j < |FieldPriority[i].0| && FieldPriority[i].0[j] == t;
    }
  }

  /** The if/elseif chain agrees with the priority table: a component writes only the
      field the table selects (the state also writes its short code), or nothing. */
  lemma ApplyFollowsPriority(parsed: map<string, string>, c: AddressComponent)
    ensures var target := TargetField(c.types);
      ApplyComponent(parsed, c) ==
        if target.None? then parsed
        else if target.value == "state" then parsed["state" := c.longName]["state_code" := c.shortName]
        else parsed[target.value := c.longName]
  {
    var ts := c.types;
    var p := FieldPriority;
    SharesRow(ts, 0); SharesRow(ts, 1); SharesRow(ts, 2); SharesRow(ts, 3);
    SharesRow(ts, 4); SharesRow(ts, 5); SharesRow(ts, 6);
    assert p[0].0 == ["street_number"] && p[1].0 == ["route"];
    assert p[2].0 == ["sublocality", "sublocality_level_1"] && p[3].0 == ["administrative_area_level_2"];
    assert p[4].0 == ["administrative_area_level_1"] && p[5].0 == ["country"] && p[6].0 == ["postal_code"];
    if "street_number" in ts {
      assert TargetField(ts) == Some("street_number");
    } else if "route" in ts {
      assert TargetField(ts) == Some("route");
    } else if "sublocality" in ts || "sublocality_level_1" in ts {
      assert TargetFrom(ts, 2) == Some("neighborhood");
    } else if "administrative_area_level_2" in ts {
      assert TargetFrom(ts, 3) == Some("city");
      assert TargetField(ts) == TargetFrom(ts, 2);
    } else if "administrative_area_level_1" in ts {
      assert TargetFrom(ts, 4) == Some("state");
      assert TargetFrom(ts, 2) == TargetFrom(ts, 4);
    } else if "country" in ts {
      assert TargetFrom(ts, 5) == Some("country");
      assert TargetFrom(ts, 3) == TargetFrom(ts, 5);
      assert TargetField(ts) == TargetFrom(ts, 3);
    } else if "postal_code" in ts {
      assert TargetFrom(ts, 6) == Some("postal_code");
      assert TargetFrom(ts, 4) == TargetFrom(ts, 6);
      assert TargetFrom(ts, 2) == TargetFrom(ts, 4);
    } else {
      assert TargetFrom(ts, 6) == None;
      assert TargetFrom(ts, 4) == None;
      assert TargetFrom(ts, 2) == None;
    }
  }

  /** The last component naming a field wins, and a field nobody names stays "". */
  lemma {:induction false} LastComponentWins(components: seq<AddressComponent>, c: AddressComponent)
    requires TargetField(c.types).Some?
    ensures var f := TargetField(c.types).value;
      ParsedComponents(components + [c])[f] == c.longName
  {
    var prefix := components + [c];
    assert prefix[..|prefix| - 1] == components;
    ApplyFollowsPriority(ParsedComponents(components), c);
  }

  /** With no component naming any field, every field is "". */
  lemma {:induction false} UnnamedFieldsStayEmpty(components: seq<AddressComponent>)
    requires forall i :: 0 <= i < |components| ==> TargetField(components[i].types).None?
    ensures ParsedComponents(components) == EmptyComponents()
    decreases |components|
  {
    if components != [] {
      var init := components[..|components| - 1];
      UnnamedFieldsStayEmpty(init);
      ApplyFollowsPriority(ParsedComponents(init), components[|components| - 1]);
    }
  }

  // ------------------------------------------------------------ cache

  /** `get_cache_key` without the hash: the trimmed, lower-cased address. */
  function CacheKey(address: string): string {
    Lower(Trim(address))
  }

  lemma LowerKeepsTrimChars(s: string)
    ensures |Lower(s)| == |s|
    ensures forall i :: 0 <= i < |s| ==> (IsTrimChar(Lower(s)[i]) <==> IsTrimChar(s[i]))
  {
  }

  /** Normalising is idempotent: a normalised address is its own key. */
  lemma CacheKeyIdempotent(address: string)
    ensures CacheKey(CacheKey(address)) == CacheKey(address)
  {
    var t := Trim(address);
    TrimmedHasNoPadding(address);
    LowerKeepsTrimChars(t);
    TrimUnpadded(Lower(t));
    LowerIdempotent(t);
  }

  /** Spellings that differ only in ASCII case or in surrounding blanks share one entry. */
  lemma CacheKeyShared(address: string, other: string, pre: string, post: string)
    requires Lower(other) == Lower(address)
    requires AllTrimChars(pre) && AllTrimChars(post)
    ensures CacheKey(pre + other + post) == CacheKey(address)
  {
    TrimIgnoresPadding(pre, other, post);
    LowerTrim(other);
    LowerTrim(address);
  }

  /** A cached geocode and the time it stops being served. */
  datatype CacheEntry = CacheEntry(value: GeoResult, expiresAt: int)

  /** `get_cached_result`: a hit needs the table, the key, and an expiry after now. */
  function CachedValue(tableExists: bool, cache: map<string, CacheEntry>, key: string, now: int): (r: Option<GeoResult>)
    ensures r.Some? <==> tableExists && key in cache && cache[key].expiresAt > now
    ensures r.Some? ==> r.value == cache[key].value
  {
    if tableExists && key in cache && cache[key].expiresAt > now then Some(cache[key].value) else None
  }

  /** `cache_result`: stores the value until now + ttl, when the table exists. */
  function CacheWrite(tableExists: bool, cache: map<string, CacheEntry>, key: string, value: GeoResult, now: int, ttl: int)
    : map<string, CacheEntry>
  {
    if tableExists then cache[key := CacheEntry(value, now + ttl)] else cache
  }

  /** A value just written is served until its lifetime ends, and not after. */
  lemma CacheWriteThenRead(cache: map<string, CacheEntry>, key: string, value: GeoResult, now: int, ttl: int, later: int)
    ensures CachedValue(true, CacheWrite(true, cache, key, value, now, ttl), key, later)
            == (if later < now + ttl then Some(value) else None)
    ensures forall other :: other != key ==>
      CachedValue(true, CacheWrite(true, cache, key, value, now, ttl), other, later) == CachedValue(true, cache, other, later)
  {
  }

  // ------------------------------------------------------------ one attempt

  function Pow2(k: nat): (r: nat)
    ensures r >= 1
  {
    if k == 0 then 1 else 2 * Pow2(k - 1)
  }

  /** Back-off after a transport failure on attempt k: 1000 * 2^(k-1) ms, at most 5 s. */
  function NetworkBackoff(attempt: nat): (d: nat)
    requires attempt >= 1
    ensures d <= 5000
  {
    if 1000 * Pow2(attempt - 1) <= 5000 then 1000 * Pow2(attempt - 1) else 5000
  }

  lemma NetworkBackoffValues()
    ensures NetworkBackoff(1) == 1000 && NetworkBackoff(2) == 2000 && NetworkBackoff(3) == 4000 && NetworkBackoff(4) == 5000
  {
  }

  /** What happens to the client's state when the loop ends. */
  datatype Effect = NoEffect | CountFailure | Succeed(place: GeoResult)

  /** The decision one answer leads to on a given attempt: wait and try again, or
      stop with a result and an effect. */
  datatype Step = Retry(delayMs: nat) | Finish(result: Geocoded, effect: Effect)

  function ErrorMessage(r: Response): string
    requires r.Reply?
  {
    if EmptyString(r.errorMessage) then DefaultErrorMessage else r.errorMessage
  }

  /** The result built from a provider result: its coordinates, address, parsed
      components and place id, not marked as fallback. */
  function FromProvider(p: ProviderResult): GeoResult {
    GeoResult(p.latitude, p.longitude, p.formattedAddress, ParsedComponents(p.components), p.placeId, false)
  }

  /** One iteration of the retry loop of `geocode_address`. Transport failures, rate
      limiting and unexpected statuses are retried until the last attempt, where they
      count one failure; INVALID_REQUEST, ZERO_RESULTS and an empty result list end the
      call at once without counting; an OK answer with a result succeeds. */
  function Classify(r: Response, attempt: nat): (s: Step)
    requires 1 <= attempt <= MaxRetries
    ensures s.Retry? ==> attempt < MaxRetries
    ensures s.Finish? && s.effect.CountFailure? ==> attempt == MaxRetries && s.result.Failed?
    ensures s.Finish? && s.effect.Succeed? ==> s.result == Located(s.effect.place) && !s.effect.place.isFallback
    ensures r.Reply? && (r.status == "INVALID_REQUEST" || r.status == "ZERO_RESULTS")
            ==> s == Finish(Failed(GeocodeFailed(ErrorMessage(r))), NoEffect)
    ensures r.Reply? && r.status == "OK" && r.results == [] ==> s == Finish(Failed(NoResults), NoEffect)
  {
    match r
    case NetworkError =>
      if attempt < MaxRetries then Retry(NetworkBackoff(attempt)) else Finish(Failed(Transport), CountFailure)
    case Reply(status, _, results) =>
      if status == "OVER_QUERY_LIMIT" then
        if attempt < MaxRetries then Retry(2000 * attempt) else Finish(Failed(RateLimit), CountFailure)
      else if status != "OK" then
        if status == "INVALID_REQUEST" || status == "ZERO_RESULTS" then Finish(Failed(GeocodeFailed(ErrorMessage(r))), NoEffect)
        else if attempt < MaxRetries then Retry(500)
        else Finish(Failed(GeocodeFailed(ErrorMessage(r))), CountFailure)
      else if results == [] then Finish(Failed(NoResults), NoEffect)
      else
        var place := FromProvider(results[0]);
        Finish(Located(place), Succeed(place))
  }

  /** The answer to request i; a request with no answer given fails in transport. */
  function ResponseAt(responses: seq<Response>, i: nat): Response {
    if i < |responses| then responses[i] else NetworkError
  }

  /** The retry loop from a given attempt on: final result and effect, number of
      requests made, and the waits requested between them. */
  datatype Run = Run(result: Geocoded, effect: Effect, requests: nat, delays: seq<nat>)

  function RunFrom(responses: seq<Response>, attempt: nat): (run: Run)
    requires 1 <= attempt <= MaxRetries
    ensures 1 <= run.requests <= MaxRetries - attempt + 1
    ensures |run.delays| == run.requests - 1
    ensures run.effect.CountFailure? ==> run.result.Failed?
    ensures run.effect.Succeed? ==> run.result == Located(run.effect.place)
    decreases MaxRetries - attempt
  {
    match Classify(ResponseAt(responses, attempt - 1), attempt)
    case Retry(d) =>
      var rest := RunFrom(responses, attempt + 1);
      Run(rest.result, rest.effect, rest.requests + 1, [d] + rest.delays)
    case Finish(result, effect) => Run(result, effect, 1, [])
  }

  /** Every wait is the one the answer before it called for, and a failure is counted
      only when all three requests were spent. */
  lemma {:induction false} RunFromSteps(responses: seq<Response>, attempt: nat)
    requires 1 <= attempt <= MaxRetries
    ensures var run := RunFrom(responses, attempt);
      (forall k :: 0 <= k < |run.delays| ==>
         Classify(ResponseAt(responses, attempt - 1 + k), attempt + k) == Retry(run.delays[k]))
      && (run.effect.CountFailure? ==> run.requests == MaxRetries - attempt + 1)
    decreases MaxRetries - attempt
  {
    if Classify(ResponseAt(responses, attempt - 1), attempt).Retry? {
      RunFromSteps(responses, attempt + 1);
      var rest := RunFrom(responses, attempt + 1);
      var run := RunFrom(responses, attempt);
      forall k | 1 <= k < |run.delays|
        ensures Classify(ResponseAt(responses, attempt - 1 + k), attempt + k) == Retry(run.delays[k])
      {
        assert run.delays[k] == rest.delays[k - 1];
      }
    }
  }

  /** One step of the loop: a retry prepends its wait to the rest of the run; a final
      answer is a run of one request. */
  lemma RunFromUnfold(responses: seq<Response>, attempt: nat)
    requires 1 <= attempt <= MaxRetries
    ensures var step := Classify(ResponseAt(responses, attempt - 1), attempt);
      var run := RunFrom(responses, attempt);
      (step.Finish? ==> run == Run(step.result, step.effect, 1, []))
      && (step.Retry? ==> var rest := RunFrom(responses, attempt + 1);
            run == Run(rest.result, rest.effect, rest.requests + 1, [step.delayMs] + rest.delays))
  {
  }

  // ------------------------------------------------------------ a whole call

  /** The configuration a call reads. */
  datatype Config = Config(apiKey: string, cacheTtl: int, tableExists: bool, fallbackDefined: bool)

  /** A call's result, the failure counter and cache afterwards, and the requests and
      waits it made. */
  datatype GeoOutcome = GeoOutcome(result: Geocoded, failures: nat, cache: map<string, CacheEntry>,
                                   requests: nat, delays: seq<nat>)

  /** `geocode_address`, as a function of the configuration and the client's state. */
  function Geocode(cfg: Config, failures: nat, cache: map<string, CacheEntry>,
                   address: string, now: int, responses: seq<Response>): GeoOutcome
  {
    if !ValidApiKey(cfg.apiKey) then GeoOutcome(Failed(NotConfigured), failures, cache, 0, [])
    else if failures >= MaxConsecutiveFailures then GeoOutcome(Fallback(cfg.fallbackDefined), failures, cache, 0, [])
    else
      var key := CacheKey(address);
      var cached := CachedValue(cfg.tableExists, cache, key, now);
      if cached.Some? then GeoOutcome(Located(cached.value), failures, cache, 0, [])
      else
        Settle(cfg, failures, cache, key, now, RunFrom(responses, 1))
  }

  /** The state after the retry loop: a counted failure, a reset and cache write, or
      nothing changed. */
  function Settle(cfg: Config, failures: nat, cache: map<string, CacheEntry>, key: string, now: int, run: Run): GeoOutcome {
    match run.effect
    case NoEffect => GeoOutcome(run.result, failures, cache, run.requests, run.delays)
    case CountFailure => GeoOutcome(run.result, failures + 1, cache, run.requests, run.delays)
    case Succeed(place) =>
      GeoOutcome(run.result, 0, CacheWrite(cfg.tableExists, cache, key, place, now, cfg.cacheTtl), run.requests, run.delays)
  }

  /** Settling depends on a run's requests and waits only to report them. */
  lemma SettleSameEffect(cfg: Config, failures: nat, cache: map<string, CacheEntry>, key: string, now: int, a: Run, b: Run)
    requires a.result == b.result && a.effect == b.effect
    ensures var x := Settle(cfg, failures, cache, key, now, a);
      var y := Settle(cfg, failures, cache, key, now, b);
      x.result == y.result && x.failures == y.failures && x.cache == y.cache
      && x.requests == a.requests && x.delays == a.delays
  {
  }

  /** One call makes at most three provider requests, and waits once between each two. */
  lemma AtMostThreeRequests(cfg: Config, failures: nat, cache: map<string, CacheEntry>,
                            address: string, now: int, responses: seq<Response>)
    ensures var o := Geocode(cfg, failures, cache, address, now, responses);
      o.requests <= MaxRetries && (o.requests == 0 ==> o.delays == []) && (o.requests > 0 ==> |o.delays| == o.requests - 1)
  {
  }

  /** An invalid key stops the call before anything else. */
  lemma NotConfiguredStopsEarly(cfg: Config, failures: nat, cache: map<string, CacheEntry>,
                                address: string, now: int, responses: seq<Response>)
    requires !ValidApiKey(cfg.apiKey)
    ensures Geocode(cfg, failures, cache, address, now, responses)
            == GeoOutcome(Failed(NotConfigured), failures, cache, 0, [])
  {
  }

  /** With the breaker open the call answers with the fallback point, before the cache
      is consulted and without any request. */
  lemma OpenBreakerFallsBack(cfg: Config, failures: nat, cache: map<string, CacheEntry>,
                             address: string, now: int, responses: seq<Response>)
    requires ValidApiKey(cfg.apiKey) && failures >= MaxConsecutiveFailures
    ensures var o := Geocode(cfg, failures, cache, address, now, responses);
      o == GeoOutcome(Fallback(cfg.fallbackDefined), failures, cache, 0, [])
      && (cfg.fallbackDefined ==> o.result.Located? && o.result.place.isFallback)
  {
  }

  /** A live cache entry is returned as stored, without any request or state change. */
  lemma CacheHitServes(cfg: Config, failures: nat, cache: map<string, CacheEntry>,
                       address: string, now: int, responses: seq<Response>)
    requires ValidApiKey(cfg.apiKey) && failures < MaxConsecutiveFailures
    requires cfg.tableExists && CacheKey(address) in cache && cache[CacheKey(address)].expiresAt > now
    ensures Geocode(cfg, failures, cache, address, now, responses)
            == GeoOutcome(Located(cache[CacheKey(address)].value), failures, cache, 0, [])
  {
  }

  /** INVALID_REQUEST and ZERO_RESULTS, and an OK answer with no result, end the call
      after one request with an error, counting no failure and caching nothing. */
  lemma NonRetryableAnswers(cfg: Config, failures: nat, cache: map<string, CacheEntry>,
                            address: string, now: int, responses: seq<Response>)
    requires ValidApiKey(cfg.apiKey) && failures < MaxConsecutiveFailures
    requires CachedValue(cfg.tableExists, cache, CacheKey(address), now).None?
    requires responses != [] && responses[0].Reply?
    requires responses[0].status in {"INVALID_REQUEST", "ZERO_RESULTS"}
             || (responses[0].status == "OK" && responses[0].results == [])
    ensures var o := Geocode(cfg, failures, cache, address, now, responses);
      o.requests == 1 && o.failures == failures && o.cache == cache && o.result.Failed?
      && (responses[0].status == "OK" ==> o.result == Failed(NoResults))
      && (responses[0].status != "OK" ==> o.result == Failed(GeocodeFailed(ErrorMessage(responses[0]))))
  {
    assert ResponseAt(responses, 0) == responses[0];
  }

  /** A successful answer resets the breaker and caches the result until now + TTL. */
  lemma SuccessResetsAndCaches(cfg: Config, failures: nat, cache: map<string, CacheEntry>,
                               address: string, now: int, responses: seq<Response>)
    requires ValidApiKey(cfg.apiKey) && failures < MaxConsecutiveFailures
    requires CachedValue(cfg.tableExists, cache, CacheKey(address), now).None?
    requires RunFrom(responses, 1).effect.Succeed?
    ensures var o := Geocode(cfg, failures, cache, address, now, responses);
      var place := RunFrom(responses, 1).effect.place;
      o.result == Located(place) && o.failures == 0 && !place.isFallback
      && (cfg.tableExists ==> o.cache == cache[CacheKey(address) := CacheEntry(place, now + cfg.cacheTtl)])
  {
  }

  /** The failure counter moves by at most one per call; it grows only after three
      requests that all failed in a retryable way, and it is reset only by a success. */
  lemma FailureCountedOnce(cfg: Config, failures: nat, cache: map<string, CacheEntry>,
                           address: string, now: int, responses: seq<Response>)
    ensures var o := Geocode(cfg, failures, cache, address, now, responses);
      (o.failures == failures || o.failures == failures + 1 || o.failures == 0)
      && (o.failures == failures + 1 ==> o.requests == MaxRetries && o.result.Failed?)
      && (o.failures == 0 && failures != 0 ==> o.result.Located? && !o.result.place.isFallback)
  {
    RunFromSteps(responses, 1);
  }

  /** Three transport failures in a row: two waits of 1 s and 2 s, one failure counted. */
  lemma ThreeTransportFailures(cfg: Config, failures: nat, cache: map<string, CacheEntry>, address: string, now: int)
    requires ValidApiKey(cfg.apiKey) && failures < MaxConsecutiveFailures
    requires CachedValue(cfg.tableExists, cache, CacheKey(address), now).None?
    ensures Geocode(cfg, failures, cache, address, now, [])
            == GeoOutcome(Failed(Transport), failures + 1, cache, 3, [1000, 2000])
  {
    NetworkBackoffValues();
  }

  /** Rate limiting waits 2 s then 4 s; other statuses wait 0.5 s. */
  lemma RetryWaits(cfg: Config, failures: nat, cache: map<string, CacheEntry>, address: string, now: int, p: ProviderResult)
    requires ValidApiKey(cfg.apiKey) && failures < MaxConsecutiveFailures
    requires CachedValue(cfg.tableExists, cache, CacheKey(address), now).None?
    ensures var limited := Reply("OVER_QUERY_LIMIT", "", []);
      Geocode(cfg, failures, cache, address, now, [limited, limited, limited])
        == GeoOutcome(Failed(RateLimit), failures + 1, cache, 3, [2000, 4000])
    ensures var denied := Reply("REQUEST_DENIED", "", []);
      Geocode(cfg, failures, cache, address, now, [denied, Reply("OK", "", [p])]).delays == [500]
  {
    var limited := Reply("OVER_QUERY_LIMIT", "", []);
    var rs := [limited, limited, limited];
    assert ResponseAt(rs, 0) == limited && ResponseAt(rs, 1) == limited && ResponseAt(rs, 2) == limited;
    var denied := Reply("REQUEST_DENIED", "", []);
    var ts := [denied, Reply("OK", "", [p])];
    assert ResponseAt(ts, 0) == denied && ResponseAt(ts, 1) == Reply("OK", "", [p]);
  }

  /** Five failing calls in a row open the breaker: the next call gets the fallback
      point without a request. */
  lemma BreakerOpensAtFive(cfg: Config, failures: nat, cache: map<string, CacheEntry>,
                           address: string, now: int, responses: seq<Response>,
                           next: string, later: int, moreResponses: seq<Response>)
    requires failures == MaxConsecutiveFailures - 1
    requires Geocode(cfg, failures, cache, address, now, responses).failures == failures + 1
    ensures var o := Geocode(cfg, failures, cache, address, now, responses);
      var o2 := Geocode(cfg, o.failures, o.cache, next, later, moreResponses);
      ValidApiKey(cfg.apiKey) ==> o2.result == Fallback(cfg.fallbackDefined) && o2.requests == 0
  {
  }

  // ------------------------------------------------------------ CEP

  /** "NNNNN-NNN" from eight digits. */
  function FormatCep(digits: string): (r: string)
    requires |digits| == 8
    ensures |r| == 9 && r[5] == '-' && r[..5] == digits[..5] && r[6..] == digits[5..]
  {
    digits[..5] + "-" + digits[5..]
  }

  /** Formatting loses nothing: stripping the formatted CEP gives back its digits. */
  lemma {:induction false} FormatCepRoundTrip(digits: string)
    requires |digits| == 8 && AllDigits(digits)
    ensures DigitsOnly(FormatCep(digits)) == digits
  {
    var a, b := digits[..5], digits[5..];
    assert FormatCep(digits) == a + ("-" + b);
    DigitsOnlyConcat(a, "-" + b);
    assert DigitsOnly("-" + b) == DigitsOnly(b) by {
      assert ("-" + b)[1..] == b;
    }
    assert AllDigits(a) && AllDigits(b) by {
      assert forall i :: 0 <= i < 5 ==> a[i] == digits[i];
      assert forall i :: 0 <= i < 3 ==> b[i] == digits[i + 5];
    }
    DigitsOnlyKeepsDigits(a);
    DigitsOnlyKeepsDigits(b);
    assert a + b == digits;
  }

  lemma {:induction false} DigitsOnlyConcat(a: string, b: string)
    ensures DigitsOnly(a + b) == DigitsOnly(a) + DigitsOnly(b)
    decreases |a|
  {
    if a != [] {
      DigitsOnlyConcat(a[1..], b);
      assert (a + b)[0] == a[0];
      assert (a + b)[1..] == a[1..] + b;
    } else {
      assert a + b == b;
    }
  }

  /** The address `validate_cep` geocodes, or None when eight digits do not remain. */
  function CepQuery(cep: string): (q: Option<string>)
    ensures q.None? <==> |DigitsOnly(cep)| != 8
    ensures q.Some? ==> q.value == FormatCep(DigitsOnly(cep)) + ", Brasil"
  {
    var digits := DigitsOnly(cep);
    if |digits| != 8 then None else Some(FormatCep(digits) + ", Brasil")
  }

  // ------------------------------------------------------------ the client object

  class GoogleMapsClient {
    var apiKey: string
    var cacheTtl: int
    var tableExists: bool
    var fallbackDefined: bool
    /** The `woo_envios_api_failures` transient; absent is 0. */
    var failures: nat
    /** The geocode cache table, keyed by normalised address. */
    var cache: map<string, CacheEntry>
    /** Requests sent to the provider so far. */
    var requests: nat
    /** Back-off waits requested so far, in milliseconds. */
    var delays: seq<nat>

    function Cfg(): Config
      reads this
    {
      Config(apiKey, cacheTtl, tableExists, fallbackDefined)
    }

    /** Reads the key (default "") and the cache lifetime (default 30 days). */
    constructor(storedKey: Option<string>, storedTtl: Option<int>, tableExists: bool, fallbackDefined: bool,
                failures: nat, cache: map<string, CacheEntry>)
      ensures apiKey == storedKey.GetOr("") && cacheTtl == storedTtl.GetOr(DefaultCacheTtl)
      ensures this.tableExists == tableExists && this.fallbackDefined == fallbackDefined
      ensures this.failures == failures && this.cache == cache && requests == 0 && delays == []
    {
      apiKey := storedKey.GetOr("");
      cacheTtl := storedTtl.GetOr(DefaultCacheTtl);
      this.tableExists := tableExists;
      this.fallbackDefined := fallbackDefined;
      this.failures := failures;
      this.cache := cache;
      requests := 0;
      delays := [];
    }

    predicate IsConfigured()
      reads this
    {
      ValidApiKey(apiKey)
    }

    /** `is_circuit_open` */
    predicate CircuitOpen()
      reads this
    {
      failures >= MaxConsecutiveFailures
    }

    /** `record_failure`: one more consecutive failure. */
    method RecordFailure()
      modifies this
      ensures failures == old(failures) + 1
      ensures Cfg() == old(Cfg()) && cache == old(cache) && requests == old(requests) && delays == old(delays)
    {
      failures := failures + 1;
    }

    /** `record_success`: the counter is deleted. */
    method RecordSuccess()
      modifies this
      ensures failures == 0
      ensures Cfg() == old(Cfg()) && cache == old(cache) && requests == old(requests) && delays == old(delays)
    {
      failures := 0;
    }

    /** `get_cached_result` */
    method GetCachedResult(key: string, now: int) returns (r: Option<GeoResult>)
      ensures r.Some? <==> tableExists && key in cache && cache[key].expiresAt > now
      ensures r.Some? ==> r.value == cache[key].value
    {
      if !tableExists {
        return None;
      }
      if key in cache && cache[key].expiresAt > now {
        return Some(cache[key].value);
      }
      return None;
    }

    /** `cache_result` with the client's lifetime. */
    method CacheResult(key: string, value: GeoResult, now: int)
      modifies this
      ensures cache == CacheWrite(tableExists, old(cache), key, value, now, cacheTtl)
      ensures Cfg() == old(Cfg()) && failures == old(failures) && requests == old(requests) && delays == old(delays)
    {
      if !tableExists {
        return;
      }
      cache := cache[key := CacheEntry(value, now + cacheTtl)];
    }

    /** `geocode_address`. `responses[i]` is the provider's answer to request i. */
    method GeocodeAddress(address: string, now: int, responses: seq<Response>) returns (r: Geocoded)
      modifies this
      ensures var o := Geocode(old(Cfg()), old(failures), old(cache), address, now, responses);
        r == o.result && failures == o.failures && cache == o.cache
        && requests == old(requests) + o.requests && delays == old(delays) + o.delays
      ensures Cfg() == old(Cfg())
    {
      if !IsConfigured() {
        return Failed(NotConfigured);
      }
      if CircuitOpen() {
        return Fallback(fallbackDefined);
      }
      var key := CacheKey(address);
      var cached := GetCachedResult(key, now);
      if cached.Some? {
        return Located(cached.value);
      }
      r := RequestWithRetries(key, now, responses);
    }

    /** The retry loop of `geocode_address`, after a cache miss. */
    method RequestWithRetries(key: string, now: int, responses: seq<Response>) returns (r: Geocoded)
      modifies this
      ensures var o := Settle(old(Cfg()), old(failures), old(cache), key, now, RunFrom(responses, 1));
        r == o.result && failures == o.failures && cache == o.cache
        && requests == old(requests) + o.requests && delays == old(delays) + o.delays
      ensures Cfg() == old(Cfg())
    {
      ghost var run := RunFrom(responses, 1);
      var attempt := 0;
      while attempt < MaxRetries
        invariant 0 <= attempt < MaxRetries
        invariant Cfg() == old(Cfg()) && failures == old(failures) && cache == old(cache)
        invariant requests == old(requests) + attempt
        invariant var rest := RunFrom(responses, attempt + 1);
          run.result == rest.result && run.effect == rest.effect && run.requests == attempt + rest.requests
          && old(delays) + run.delays == delays + rest.delays
        decreases MaxRetries - attempt
      {
        attempt := attempt + 1;
        requests := requests + 1;
        var response := ResponseAt(responses, attempt - 1);
        RunFromUnfold(responses, attempt);
        var answered := HandleAnswer(key, now, response, attempt);
        if answered.Some? {
          ghost var step := Classify(response, attempt);
          SettleSameEffect(old(Cfg()), old(failures), old(cache), key, now, run, Run(step.result, step.effect, 1, []));
          return answered.value;
        }
      }
      // Every path of the last attempt returns, so the source's fallback after the loop
      // is never reached.
      assert false;
    }

    /** The body of one attempt of the retry loop: reacts to the answer as `Classify`
        decides, waiting before a retry (None) or recording the final effect and giving the
        call's result. */
    method HandleAnswer(key: string, now: int, response: Response, attempt: nat) returns (r: Option<Geocoded>)
      requires 1 <= attempt <= MaxRetries
      modifies this
      ensures var step := Classify(response, attempt);
        && (step.Retry? <==> r.None?)
        && (step.Retry? ==> delays == old(delays) + [step.delayMs] && failures == old(failures) && cache == old(cache))
        && (step.Finish? ==>
              var o := Settle(old(Cfg()), old(failures), old(cache), key, now, Run(step.result, step.effect, 1, []));
              r == Some(step.result) && delays == old(delays) && failures == o.failures && cache == o.cache)
      ensures Cfg() == old(Cfg()) && requests == old(requests)
    {
      if response.NetworkError? {
        if attempt < MaxRetries {
          assert Classify(response, attempt) == Retry(NetworkBackoff(attempt));
          delays := delays + [NetworkBackoff(attempt)];
          return None;
        }
        assert Classify(response, attempt) == Finish(Failed(Transport), CountFailure);
        RecordFailure();
        return Some(Failed(Transport));
      }
      if response.status == "OVER_QUERY_LIMIT" {
        if attempt < MaxRetries {
          assert Classify(response, attempt) == Retry(2000 * attempt);
          delays := delays + [2000 * attempt];
          return None;
        }
        assert Classify(response, attempt) == Finish(Failed(RateLimit), CountFailure);
        RecordFailure();
        return Some(Failed(RateLimit));
      }
      if response.status != "OK" {
        var message := if EmptyString(response.errorMessage) then DefaultErrorMessage else response.errorMessage;
        if response.status == "INVALID_REQUEST" || response.status == "ZERO_RESULTS" {
          assert Classify(response, attempt) == Finish(Failed(GeocodeFailed(message)), NoEffect);
          return Some(Failed(GeocodeFailed(message)));
        }
        if attempt < MaxRetries {
          assert Classify(response, attempt) == Retry(500);
          delays := delays + [500];
          return None;
        }
        assert Classify(response, attempt) == Finish(Failed(GeocodeFailed(message)), CountFailure);
        RecordFailure();
        return Some(Failed(GeocodeFailed(message)));
      }
      if response.results == [] {
        assert Classify(response, attempt) == Finish(Failed(NoResults), NoEffect);
        return Some(Failed(NoResults));
      }
      assert Classify(response, attempt) == Finish(Located(FromProvider(response.results[0])), Succeed(FromProvider(response.results[0])));
      RecordSuccess();
      var first := response.results[0];
      var components := ParseAddressComponents(first.components);
      var output := GeoResult(first.latitude, first.longitude, first.formattedAddress, components, first.placeId, false);
      CacheResult(key, output, now);
      return Some(Located(output));
    }

    /** `validate_cep`: fewer or more than eight digits is rejected without a request;
        otherwise the formatted CEP is geocoded. */
    method ValidateCep(cep: string, now: int, responses: seq<Response>) returns (r: Geocoded)
      modifies this
      ensures CepQuery(cep).None? ==>
        r == Failed(InvalidCep) && failures == old(failures) && cache == old(cache)
        && requests == old(requests) && delays == old(delays)
      ensures CepQuery(cep).Some? ==>
        var o := Geocode(old(Cfg()), old(failures), old(cache), CepQuery(cep).value, now, responses);
        r == o.result && failures == o.failures && cache == o.cache
        && requests == old(requests) + o.requests && delays == old(delays) + o.delays
      ensures Cfg() == old(Cfg())
    {
      var digits := DigitsOnly(cep);
      if |digits| != 8 {
        return Failed(InvalidCep);
      }
      var formatted := digits[..5] + "-" + digits[5..];
      r := GeocodeAddress(formatted + ", Brasil", now, responses);
    }
  }
}
