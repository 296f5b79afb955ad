# Woo Envios shipping engine, modelled in Dafny

This project models the shipping-quote engine of the Woo Envios WooCommerce plugin.
That engine prices local "flash" delivery by distance tiers and dynamic surcharges, and
quotes Correios (PAC/SEDEX) with a contingency table. It geocodes checkout addresses
through a Google Maps client that has a circuit breaker, a TTL cache and a bounded retry
loop. It also stores the located point in the session and sorts the rates. Each source
file of the core has a module of its own:

- `Tiers` (`includes/class-woo-envios-admin.php`):
  - coordinate sanitising;
  - the tier sanitiser, modelled as a loop plus a stable sort by distance;
  - the built-in 30-row table;
  - `get_tiers`;
  - first-match tier lookup.
- `Correios` (`includes/Services/class-woo-envios-correios.php`):
  - constructor defaults;
  - CEP cleaning;
  - total weight;
  - package box clamping;
  - the cache key as a tuple;
  - Brazilian price parsing and service filtering;
  - the profit margin;
  - the contingency table with its weight surcharge;
  - the cache-or-call-or-contingency flow of `calculate`, as a function and as a method of the `CorreiosService` class.
- `GoogleMaps` (`includes/class-woo-envios-google-maps.php`):
  - key format;
  - breaker counter;
  - fallback point;
  - address components;
  - cache key and TTL cache;
  - one retry step (`Classify`), the whole loop (`RunFrom`) and the whole call (`Geocode`);
  - CEP validation;
  - the `GoogleMapsClient` class, whose methods are proved against those functions.
- `Weather` (`includes/class-woo-envios-weather.php`):
  - rain classification;
  - description;
  - the one-hour report cache and the multiplier, with the `WeatherService` class.
- `Shipping` (`includes/class-woo-envios-shipping.php`):
  - peak windows compared as "HH:MM" strings;
  - the weekend rule;
  - the dynamic multiplier;
  - session coordinates;
  - route distance;
  - the single rate `calculate_shipping` adds, with the `ShippingMethod` class.
- `Checkout` (`includes/class-woo-envios-checkout.php` with `includes/Services/Geocoder.php`):
  - CEP check;
  - address assembly;
  - session signature;
  - the AJAX handler.
- `Plugin` (`woo-envios.php`):
  - method registration;
  - the flash-first sort of the rate list.
- `Php` holds the PHP built-ins the core relies on, with PHP's own semantics:
  - `empty()` on strings, where "" and "0" are falsy;
  - `strtolower`/`ucfirst`, `trim`, `preg_replace('/[^0-9]/')`, `implode`, `array_filter`, `is_numeric`;
  - the `(float)` cast of a string;
  - `(int)` truncation;
  - `round()` half away from zero.

How inputs are modelled:

- **Provider answers.** Google, OpenWeather, Correios and the route service are inputs.
  - Geocoding gets the sequence of answers to its successive requests. A request with no answer in the sequence fails in transport.
- **Clock.** The clock is an input: seconds for cache expiry, "HH:MM" and the weekday for pricing.
- **md5.** Hashed keys and signatures are replaced by the string that would be hashed.
- **Money and multipliers.** These are exact `real`s.

## Model

| member | source | states |
|---|---|---|
| Tiers.SanitizeCoordinate | includes/class-woo-envios-admin.php:404-407 | the result is numeric and comma-free; it is the comma-to-point text when that is numeric, and "0" otherwise |
| Tiers.FormatWholeNumber | includes/class-woo-envios-admin.php:433 | a whole bound k gets the generated label "Raio k.0 km" |
| Tiers.DefaultLabel | includes/class-woo-envios-admin.php:433 | the generated label "Raio %.1f km" of a row with an empty label; used by `Tiers.SanitizeRow` |
| Tiers.DefaultTiersShape | includes/class-woo-envios-admin.php:800-833 | the built-in table has 30 rows; row i covers i+1 km; bounds strictly ascend; prices never fall; every row is valid |
| Tiers.SanitizeRow | includes/class-woo-envios-admin.php:423-437 | a row is kept iff its parsed distance (0 when absent) is > 0 and its price (0 when absent) is >= 0; a kept row has exactly that distance and price, its own label when that is non-empty and the generated "Raio %.1f km" label otherwise; a kept row is valid |
| Tiers.SanitizedRowsOrigin | includes/class-woo-envios-admin.php:423-437 | every kept row is valid and is the cleaned form of some submitted row |
| Tiers.SanitizedRowsComplete | includes/class-woo-envios-admin.php:423-437 | a submitted row whose cleaned form exists is kept |
| Tiers.SanitizedRows | includes/class-woo-envios-admin.php:423-437 | the rows the loop keeps, in submission order; characterised by `Tiers.SanitizedRowsOrigin` and `Tiers.SanitizedRowsComplete` |
| Tiers.InsertByDistanceCorrect | includes/class-woo-envios-admin.php:443-448 | inserting into a distance-sorted list keeps it sorted and adds exactly that row |
| Tiers.SortByDistanceCorrect | includes/class-woo-envios-admin.php:443-448 | the sort output is ordered by distance and is a permutation of its input |
| Tiers.SortByDistance | includes/class-woo-envios-admin.php:443-448 | `usort` by distance; ordered and a permutation (`Tiers.SortByDistanceCorrect`) and stable (`Tiers.SortStable`) |
| Tiers.InsertKeepsTies | includes/class-woo-envios-admin.php:443-448 | inserting a tier puts it ahead of every tier with the same bound and keeps their order |
| Tiers.SortStable | includes/class-woo-envios-admin.php:443-448 | tiers with the same bound leave the sort in their submitted order, as PHP 8's stable `usort` keeps them |
| Tiers.SanitizeTiers | includes/class-woo-envios-admin.php:416-450 | a non-array input, or one with no surviving row, gives the built-in table; otherwise the result is the surviving rows sorted by distance, as a permutation |
| Tiers.SanitizedTableWellFormed | includes/class-woo-envios-admin.php:416-450 | every table the sanitiser can store is non-empty, sorted and made of valid rows |
| Tiers.GetTiers | includes/class-woo-envios-admin.php:757-765 | never empty; a stored non-empty array is returned as stored, anything else gives the built-in table |
| Tiers.GetTiersAfterSanitize | includes/class-woo-envios-admin.php:757-765 | with the sanitiser of lines 416-450: a sanitised table is read back sorted and made of valid rows |
| Tiers.MatchTier | includes/class-woo-envios-admin.php:774-782 | a match is a tier of the table whose bound covers the distance |
| Tiers.MatchTierAt | includes/class-woo-envios-admin.php:774-782 | the match is the first covering tier in stored order |
| Tiers.MatchTierNone | includes/class-woo-envios-admin.php:775-781 | no match exactly when the distance exceeds every bound |
| Tiers.BoundaryInclusive | includes/class-woo-envios-admin.php:776 | a distance equal to a bound matches that tier when the earlier bounds are smaller |
| Tiers.MatchTierMonotone | includes/class-woo-envios-admin.php:774-782 | over a sorted table a smaller distance is matched too, by a tier with no larger bound |
| Tiers.BeyondLastBound | includes/class-woo-envios-admin.php:774-782 | beyond the last bound of a sorted table there is no match |
| Tiers.MatchTierExamples | includes/class-woo-envios-admin.php:774-782 | worked lookups on a two-row table, including one out of range |
| Tiers.DefaultTableRange | includes/class-woo-envios-admin.php:774-833 | the built-in table matches exactly the distances up to 30 km |
| Correios.SanitizeCep | includes/Services/class-woo-envios-correios.php:662-664 | digits only; a subsequence of the input; idempotent; an all-digit input is unchanged |
| Correios.ServicesSetting | includes/Services/class-woo-envios-correios.php:132-140 | never empty; a stored non-empty array is kept, anything else gives PAC and SEDEX |
| Correios.DefaultOriginSanitized | includes/Services/class-woo-envios-correios.php:131 | with `sanitize_cep` of lines 662-664: the default origin 38400-000, cleaned, is the eight digits 38400000 |
| Correios.CorreiosService.constructor | includes/Services/class-woo-envios-correios.php:130-141 | origin CEP is the cleaned option, or without one the cleaned default 38400000; services as above; margin defaults to 0 |
| Correios.ItemWeight | includes/Services/class-woo-envios-correios.php:516-537 | an unweighted product counts 0.3 kg; a weighted one is converted to kg |
| Correios.TotalWeight | includes/Services/class-woo-envios-correios.php:503-543 | at least 0.3; exactly 0.3 for an empty cart; otherwise the line sum floored at 0.3 |
| Correios.TotalWeightAsWritten | includes/Services/class-woo-envios-correios.php:503-543 | the weight as the source computes it, with the default before conversion; at least 0.3 |
| Correios.ComputeTotalWeight | includes/Services/class-woo-envios-correios.php:503-543 | the loop computes `TotalWeight` and is at least 0.3 |
| Correios.DefaultWeightIsThreeHundredGrams | includes/Services/class-woo-envios-correios.php:519-521 | with the correction, an unweighted product weighs 0.3 kg in every unit |
| Correios.UnitDefaultCounterexample | includes/Services/class-woo-envios-correios.php:521-528 | as written, with unit "g" an unweighted product weighs 0.0003 kg; ten of them weigh 0.3 kg, not 3 kg |
| Correios.CorrectionAgreesOtherwise | includes/Services/class-woo-envios-correios.php:503-543 | when every product has a weight, or the unit needs no conversion, the corrected and as-written weights agree |
| Correios.PackageDimensions | includes/Services/class-woo-envios-correios.php:626-631 | with the empty-cart box of lines 551-558: an empty cart gives the minimum box; otherwise each side is max(its estimate rounded to 0.1 cm, its minimum of 2/11/16 cm), so an estimated height at least 0.05 cm above its minimum is kept, rounded |
| Correios.BuildCacheKey | includes/Services/class-woo-envios-correios.php:642-654 | the key keeps origin and destination; weight within 0.05; each side truncated to whole cm; services joined by "-" |
| Correios.ServiceTitle | includes/Services/class-woo-envios-correios.php:466-468 | the title starts with the service name, and is the bare name when there is no deadline |
| Correios.ParseService | includes/Services/class-woo-envios-correios.php:442-471 | a service is kept iff its error code is "0" (absent counts as "0") and its parsed price is positive; a kept rate records id, code, title, cost and deadline |
| Correios.ParseResponse | includes/Services/class-woo-envios-correios.php:436-475 | the loop keeps exactly the parsed services, in answer order |
| Correios.ParsedRatesSound | includes/Services/class-woo-envios-correios.php:442-471 | every parsed rate costs more than 0 and comes from some service of the answer |
| Correios.ParsedRatesComplete | includes/Services/class-woo-envios-correios.php:442-471 | a service that parses is among the kept rates |
| Correios.ParsedRatesEmpty | includes/Services/class-woo-envios-correios.php:442-474 | nothing is parsed exactly when every service is dropped |
| Correios.ParsePriceThousands | includes/Services/class-woo-envios-correios.php:453 | "1.234,56" is read as 1234.56 |
| Correios.ParsePriceComma | includes/Services/class-woo-envios-correios.php:453 | "18,50" is read as 18.5 |
| Correios.ParsePrice | includes/Services/class-woo-envios-correios.php:453 | a Brazilian price: thousands points removed, decimal comma read as a point; see `Correios.ParsePriceThousands` and `Correios.ParsePriceComma` |
| Correios.ParseServiceExamples | includes/Services/class-woo-envios-correios.php:444-460 | an error code or a zero price drops the service; an unlisted code is named "Correios" |
| Correios.ApplyProfitMargin | includes/Services/class-woo-envios-correios.php:483-495 | the by-reference loop yields `WithMargin` |
| Correios.WithMargin | includes/Services/class-woo-envios-correios.php:483-495 | the margin as a function of the rates; its properties are `Correios.MarginIdentity`, `Correios.MarginCostBounds` and `Correios.MarginChangesCostOnly` |
| Correios.MarginIdentity | includes/Services/class-woo-envios-correios.php:484-486 | a margin <= 0 leaves the rates untouched |
| Correios.MarginCostBounds | includes/Services/class-woo-envios-correios.php:488-492 | one marked-up cost is within half a cent of cost × (1 + m/100), and a positive margin never takes a non-negative cost below its rounded value |
| Correios.MarginChangesCostOnly | includes/Services/class-woo-envios-correios.php:488-492 | same length and same non-cost fields; each cost within half a cent of cost × (1 + m/100), and for m > 0 and a non-negative cost not below the cost rounded to cents |
| Correios.RegionFor | includes/Services/class-woo-envios-correios.php:705-721 | the trimmed, upper-cased state picks a non-empty custom row, else the built-in row, else the 60/85/20/10 row; the normalisation is stated for all inputs by `Correios.RegionForIgnoresPadding` and `Correios.RegionForIgnoresCase` |
| Correios.RegionForIgnoresPadding | includes/Services/class-woo-envios-correios.php:705 | blanks added at either end of the state never change the row it finds |
| Correios.RegionForIgnoresCase | includes/Services/class-woo-envios-correios.php:705 | states that differ only in ASCII letter case find the same row |
| Correios.RegionLookupNormalises | includes/Services/class-woo-envios-correios.php:705 | " mg " finds the MG row |
| Correios.RegionLookupPrecedence | includes/Services/class-woo-envios-correios.php:709-721 | a custom row wins; an empty custom row does not; an unknown state gets the default row |
| Correios.BuiltInRowsPriced | includes/Services/class-woo-envios-correios.php:91-125 | every built-in row has a PAC and a SEDEX price |
| Correios.BuiltInRowsExample | includes/Services/class-woo-envios-correios.php:91-125 | MG is 18/28 with 5 and 2 days, SP is 22/35 with 6 and 2 days, and XX is not in the table |
| Correios.WeightMultiplier | includes/Services/class-woo-envios-correios.php:724-729 | 1.0 up to 1 kg; otherwise min(1 + 0.1·(w−1), 3); always within [1, 3] |
| Correios.WeightMultiplierMonotone | includes/Services/class-woo-envios-correios.php:724-729 | the surcharge never falls as weight grows, and is 3 from 21 kg on |
| Correios.ContingencyRates | includes/Services/class-woo-envios-correios.php:704-757 | at most two rates, each for an enabled PAC or SEDEX code |
| Correios.ContingencyShape | includes/Services/class-woo-envios-correios.php:734-756 | a PAC rate exactly when PAC is enabled and priced, SEDEX likewise, PAC first |
| Correios.ContingencyCosts | includes/Services/class-woo-envios-correios.php:735-746 | each cost is the row price × the weight surcharge, rounded to cents |
| Correios.ContingencyAvailable | includes/Services/class-woo-envios-correios.php:711-756 | with no custom rows, the contingency quote is empty exactly when neither PAC nor SEDEX is enabled |
| Correios.QuoteRejects | includes/Services/class-woo-envios-correios.php:168-187 | disabled, a bad CEP or more than 30 kg gives false, with no call and no cache change |
| Correios.QuoteStoresBeforeMargin | includes/Services/class-woo-envios-correios.php:193-242 | the service is called only on a miss; only usable live rates are cached, before the margin; the margin is applied once |
| Correios.QuoteSources | includes/Services/class-woo-envios-correios.php:193-242 | every non-false quote is the margin applied once to the cached, the live or the non-empty contingency rates; contingency only when enabled and the live path failed |
| Correios.QuoteFailsWithoutContingency | includes/Services/class-woo-envios-correios.php:202-237 | a failed live path with contingency off gives false |
| Correios.QuoteThenCached | includes/Services/class-woo-envios-correios.php:193-240 | after a live quote, the same package is answered from the cache, identically, until expiry |
| Correios.Quote | includes/Services/class-woo-envios-correios.php:167-243 | `calculate` as a function of the service's state and inputs, giving the result, the new cache and whether the web service was called; its properties are `Correios.QuoteRejects` to `Correios.QuoteThenCached` |
| Correios.LiveQuote | includes/Services/class-woo-envios-correios.php:199-240 | the cache-miss path: usable live rates are cached before the margin and returned with it, anything else goes to the contingency fallback; see `Correios.QuoteStoresBeforeMargin` |
| Correios.CorreiosService.Calculate | includes/Services/class-woo-envios-correios.php:167-243 | the method returns `Quote` and leaves the cache as `Quote` says, counting one call exactly when `Quote` calls; the settings are unchanged |
| Correios.CorreiosService.CallService | includes/Services/class-woo-envios-correios.php:199-242 | one web-service call; a usable answer is stored for 12 hours and returned with the margin, an error or an empty parse falls back to the margined contingency rates when enabled and non-empty, otherwise nothing; the settings are unchanged |
| GoogleMaps.ValidApiKeyFormat | includes/class-woo-envios-google-maps.php:88-112 | configured iff the key is 39 characters and starts with "AIza" |
| GoogleMaps.ValidApiKey | includes/class-woo-envios-google-maps.php:88-112 | a non-empty key of 39 characters starting with "AIza"; characterised by `GoogleMaps.ValidApiKeyFormat` |
| GoogleMaps.GoogleMapsClient.constructor | includes/class-woo-envios-google-maps.php:68-72 | the key defaults to "" and the cache lifetime to 30 days |
| GoogleMaps.GoogleMapsClient.RecordFailure | includes/class-woo-envios-google-maps.php:127-130 | the counter grows by exactly one, nothing else changes |
| GoogleMaps.GoogleMapsClient.RecordSuccess | includes/class-woo-envios-google-maps.php:145-147 | the counter is reset to 0, nothing else changes |
| GoogleMaps.Fallback | includes/class-woo-envios-google-maps.php:271-284 | with the constants defined, the default point marked as fallback; else `fallback_failed` |
| GoogleMaps.EmptyComponents | includes/class-woo-envios-google-maps.php:544-553 | the eight keys, all "" |
| GoogleMaps.ParsedComponents | includes/class-woo-envios-google-maps.php:543-577 | always exactly the eight keys |
| GoogleMaps.ParseAddressComponents | includes/class-woo-envios-google-maps.php:543-577 | the loop yields `ParsedComponents` with the eight keys |
| GoogleMaps.ApplyFollowsPriority | includes/class-woo-envios-google-maps.php:558-573 | a component writes only the field chosen by the type priority (the state also writes its short code), or nothing |
| GoogleMaps.LastComponentWins | includes/class-woo-envios-google-maps.php:555-574 | the last component naming a field decides its value |
| GoogleMaps.UnnamedFieldsStayEmpty | includes/class-woo-envios-google-maps.php:544-576 | with no component naming a field, every field is "" |
| GoogleMaps.CacheKeyIdempotent | includes/class-woo-envios-google-maps.php:585-587 | the normalised key is its own key |
| GoogleMaps.CacheKeyShared | includes/class-woo-envios-google-maps.php:585-587 | addresses that differ only in ASCII case or in blanks added at either end share one cache key |
| GoogleMaps.CacheKey | includes/class-woo-envios-google-maps.php:585-587 | the cache key before hashing: the trimmed, lower-cased address; its properties are `GoogleMaps.CacheKeyIdempotent` and `GoogleMaps.CacheKeyShared` |
| GoogleMaps.CachedValue | includes/class-woo-envios-google-maps.php:595-617 | a hit iff the table exists and the key has an entry expiring after now; a hit is the stored value |
| GoogleMaps.GoogleMapsClient.GetCachedResult | includes/class-woo-envios-google-maps.php:595-617 | the same, read from the client's table |
| GoogleMaps.GoogleMapsClient.CacheResult | includes/class-woo-envios-google-maps.php:627-652 | the entry is stored until now + TTL when the table exists; nothing else changes |
| GoogleMaps.CacheWriteThenRead | includes/class-woo-envios-google-maps.php:605-646 | a written value is served until its lifetime ends; other keys are unaffected |
| GoogleMaps.CacheWrite | includes/class-woo-envios-google-maps.php:627-652 | the cache after `cache_result`: the entry until now + TTL when the table exists, the old cache otherwise; read back by `GoogleMaps.CacheWriteThenRead` |
| GoogleMaps.NetworkBackoff | includes/class-woo-envios-google-maps.php:201 | never more than 5000 ms |
| GoogleMaps.NetworkBackoffValues | includes/class-woo-envios-google-maps.php:201 | 1000, 2000, 4000, then 5000 ms |
| GoogleMaps.Classify | includes/class-woo-envios-google-maps.php:198-258 | a retry only before the last attempt; a failure is counted only on the last attempt, with an error; INVALID_REQUEST/ZERO_RESULTS and an empty OK end at once with no count; success yields a non-fallback located result |
| GoogleMaps.RunFrom | includes/class-woo-envios-google-maps.php:178-259 | 1 to 3 requests with one wait between each two; a counted failure is an error; a success is located |
| GoogleMaps.RunFromSteps | includes/class-woo-envios-google-maps.php:198-237 | each wait is the one the preceding answer called for; a failure is counted only after three requests |
| GoogleMaps.AtMostThreeRequests | includes/class-woo-envios-google-maps.php:155-264 | one call makes at most three requests and waits between them only |
| GoogleMaps.Geocode | includes/class-woo-envios-google-maps.php:155-264 | `geocode_address` as a function of configuration, breaker count, cache and the sequence of answers; its properties are the lemmas from `GoogleMaps.AtMostThreeRequests` to `GoogleMaps.BreakerOpensAtFive` |
| GoogleMaps.NotConfiguredStopsEarly | includes/class-woo-envios-google-maps.php:156-158 | an invalid key gives `not_configured` with no request and no state change |
| GoogleMaps.OpenBreakerFallsBack | includes/class-woo-envios-google-maps.php:161-164 | with the breaker open, the fallback result, with no request, before the cache |
| GoogleMaps.CacheHitServes | includes/class-woo-envios-google-maps.php:167-172 | a live entry is returned as stored, with no request or state change |
| GoogleMaps.NonRetryableAnswers | includes/class-woo-envios-google-maps.php:226-242 | INVALID_REQUEST, ZERO_RESULTS or an empty OK end after one request with an error, no failure counted, nothing cached |
| GoogleMaps.SuccessResetsAndCaches | includes/class-woo-envios-google-maps.php:245-258 | success resets the counter and caches the result until now + TTL |
| GoogleMaps.FailureCountedOnce | includes/class-woo-envios-google-maps.php:205-245 | per call the counter stays, grows by one or is reset: +1 only after three requests ending in an error; a reset of a non-zero counter only on a real (non-fallback) location |
| GoogleMaps.ThreeTransportFailures | includes/class-woo-envios-google-maps.php:198-206 | three transport failures wait 1 s then 2 s and count one failure |
| GoogleMaps.RetryWaits | includes/class-woo-envios-google-maps.php:213-237 | rate limiting waits 2 s then 4 s; other statuses wait 0.5 s |
| GoogleMaps.BreakerOpensAtFive | includes/class-woo-envios-google-maps.php:119-130 | the fifth counted failure opens the breaker: the next call falls back with no request |
| GoogleMaps.GoogleMapsClient.GeocodeAddress | includes/class-woo-envios-google-maps.php:155-264 | result, counter, cache, requests and waits are exactly those `Geocode` gives |
| GoogleMaps.GoogleMapsClient.RequestWithRetries | includes/class-woo-envios-google-maps.php:175-263 | the loop ends in the state that `Settle` gives for `RunFrom` |
| GoogleMaps.GoogleMapsClient.HandleAnswer | includes/class-woo-envios-google-maps.php:198-258 | one attempt acts as `Classify` says: it waits, counts a failure, or resets and caches |
| GoogleMaps.FormatCep | includes/class-woo-envios-google-maps.php:488 | "NNNNN-NNN" from the eight digits |
| GoogleMaps.FormatCepRoundTrip | includes/class-woo-envios-google-maps.php:481-488 | stripping a formatted CEP gives its digits back |
| GoogleMaps.CepQuery | includes/class-woo-envios-google-maps.php:479-491 | rejected iff eight digits do not remain; otherwise the query is the formatted CEP + ", Brasil" |
| GoogleMaps.GoogleMapsClient.ValidateCep | includes/class-woo-envios-google-maps.php:479-492 | a bad CEP is `invalid_cep` with no state change; otherwise the geocode of the query |
| Weather.RainMultiplier | includes/class-woo-envios-weather.php:116-145 | the factor is 1.0, the light factor or the heavy factor; a missing condition gives 1.0; a thunderstorm (in any letter case) is heavy at any intensity; any other condition that is neither rain nor drizzle gives 1.0 (the rain threshold is `Weather.RainThreshold`) |
| Weather.RainThreshold | includes/class-woo-envios-weather.php:125-136 | rain above 5 mm/h is heavy; at most 5 mm/h, or no value, is light |
| Weather.ConditionIgnoresCase | includes/class-woo-envios-weather.php:122 | conditions differing only in case give the same factor |
| Weather.RainMonotone | includes/class-woo-envios-weather.php:125-136 | with light <= heavy, more rain never lowers the factor |
| Weather.DefaultFactorsRange | includes/class-woo-envios-weather.php:131-144 | with default options the factor is 1.0, 1.2 or 1.5 |
| Weather.Description | includes/class-woo-envios-weather.php:153-160 | "" when missing; else the text with its first letter upper-cased and the rest unchanged |
| Weather.CurrentWeather | includes/class-woo-envios-weather.php:62-108 | the provider is asked iff no live entry exists; a report given is a cached one or has `weather` |
| Weather.CachedReportServed | includes/class-woo-envios-weather.php:66-70 | a cached report is returned with no request |
| Weather.InvalidAnswerNotCached | includes/class-woo-envios-weather.php:91-102 | a failed request or an answer without `weather` gives nothing and is not cached |
| Weather.FetchThenServed | includes/class-woo-envios-weather.php:99-107 | a usable answer is served from the cache for the next hour |
| Weather.WeatherMultiplier | includes/class-woo-envios-weather.php:36-52 | 1.0 with no key or no report; always 1.0, light or heavy |
| Weather.WeatherService.GetCurrentWeather | includes/class-woo-envios-weather.php:62-108 | report, cache and request count as `CurrentWeather` gives |
| Weather.WeatherService.GetWeatherMultiplier | includes/class-woo-envios-weather.php:36-52 | no key: 1.0 with no request; otherwise `WeatherMultiplier` of the lookup |
| Weather.WeatherService.ClearCache | includes/class-woo-envios-weather.php:167-176 | every cached report is dropped |
| Shipping.ClockOrder | includes/class-woo-envios-shipping.php:319 | on "HH:MM" readings the string comparison is the time order |
| Shipping.FirstActiveFromSpec | includes/class-woo-envios-shipping.php:313-333 | the index found is an active window, and no earlier window is active |
| Shipping.FirstActiveFrom | includes/class-woo-envios-shipping.php:313-333 | a window found is at or after the starting index and inside the list |
| Shipping.PeakFactorFirstMatch | includes/class-woo-envios-shipping.php:305-336 | no active window gives 1.0 and ""; otherwise the first active window's factor and label |
| Shipping.GetPeakHourMultiplier | includes/class-woo-envios-shipping.php:305-336 | the loop returns `PeakFactor` |
| Shipping.PeakFactor | includes/class-woo-envios-shipping.php:305-336 | the factor and label of the first active window, or 1.0 and "" when none is; see `Shipping.PeakFactorFirstMatch` |
| Shipping.InvertedWindowNeverActive | includes/class-woo-envios-shipping.php:319 | a window whose end sorts before its start never applies |
| Shipping.AppliedFactors | includes/class-woo-envios-shipping.php:265-286 | only factors above 1.0 apply, at most three |
| Shipping.ReasonsMatchFactors | includes/class-woo-envios-shipping.php:267-286 | one breakdown line per applied factor, in order |
| Shipping.Capped | includes/class-woo-envios-shipping.php:289-292 | the total is min(product, ceiling): the product when it is within the ceiling, the ceiling otherwise; the reasons are kept |
| Shipping.DynamicMultiplier | includes/class-woo-envios-shipping.php:253-298 | disabled gives 1.0 with no reasons; enabled gives min(product of the applied factors, ceiling), with the applied factors' reasons |
| Shipping.ProductAtLeastOne | includes/class-woo-envios-shipping.php:262-286 | surcharges above 1.0 multiply to at least 1.0, and to more when there is one |
| Shipping.MultiplierBounds | includes/class-woo-envios-shipping.php:262-292 | with a ceiling >= 1 the total lies in [1, ceiling], and is exactly 1.0 with nothing applied |
| Shipping.CeilingBelowOneDiscounts | includes/class-woo-envios-shipping.php:289-292 | a ceiling below 1.0 makes the total that ceiling |
| Shipping.IsWeekend | includes/class-woo-envios-shipping.php:363-366 | Saturday (6) and Sunday (0) are the weekend days; used by `Shipping.AppliedFactors` |
| Shipping.BreakdownLines | includes/class-woo-envios-shipping.php:273-286 | with the breakdown text of lines 363-366: the weekend line appears iff it is Saturday or Sunday and the factor is above 1.0; the rain line iff the weather factor is above 1.0 |
| Shipping.ApplyFactors | includes/class-woo-envios-shipping.php:262-286 | the loop's running total and reasons are the product and reasons of the applied factors |
| Shipping.CalculateDynamicMultiplier | includes/class-woo-envios-shipping.php:253-298 | the method returns `DynamicMultiplier` |
| Shipping.SessionCoordinates | includes/class-woo-envios-shipping.php:163-182 | a point iff there is a session with non-zero lat and lng; the point is the stored one |
| Shipping.SignatureIgnored | includes/class-woo-envios-shipping.php:173-176 | the stored signature does not affect the result |
| Shipping.DestinationSignature | includes/class-woo-envios-shipping.php:232-244 | address_1, city, state, postcode and country joined by vertical bars and lower-cased, before hashing; computed and never used, see `Shipping.SignatureIgnored` |
| Shipping.TripDistance | includes/class-woo-envios-shipping.php:96-109 | a routed distance is round(m/1000, 2); otherwise the straight-line distance |
| Shipping.TripDistanceClose | includes/class-woo-envios-shipping.php:108 | the routed distance is within 5 m of the exact value |
| Shipping.RateCostMonotone | includes/class-woo-envios-shipping.php:121-129 | a larger multiplier never lowers the cost of a non-negative price |
| Shipping.ShippingQuote | includes/class-woo-envios-shipping.php:76-144 | a rate given carries the method id and the configured title |
| Shipping.QuoteWith | includes/class-woo-envios-shipping.php:111-144 | the same, for a given dynamic multiplier |
| Shipping.QuoteContents | includes/class-woo-envios-shipping.php:76-144 | no rate iff disabled, no store point, no session point, or no tier; otherwise id, title, cost round(price × total, 2), and metadata with distance, base price, multiplier and breakdown |
| Shipping.CostWithinCeiling | includes/class-woo-envios-shipping.php:119-129 | with the clamp of lines 289-292: the cost never exceeds the rounded price × ceiling; when disabled it is the rounded tier price |
| Shipping.DefaultTableReach | includes/class-woo-envios-shipping.php:111-116 | when the stored tier option reads as the built-in table, nothing beyond 30 km is quoted |
| Shipping.ShippingMethod.constructor | includes/class-woo-envios-shipping.php:55-56 | a missing or empty stored `enabled` reads as "yes" and a missing or empty title as "Entrega Flash", as `get_option` with a second argument gives; any other stored value is kept; neither setting is ever empty, and no rate is added yet |
| Shipping.ShippingMethod.CalculateShipping | includes/class-woo-envios-shipping.php:76-156 | appends exactly the rate `ShippingQuote` gives, or nothing |
| Checkout.FormattedCepAccepted | includes/class-woo-envios-checkout.php:69-79 | a CEP given as eight digits, bare or "NNNNN-NNN", is not rejected |
| Checkout.CepRejected | includes/class-woo-envios-checkout.php:69-79 | a Brazilian address with a non-empty postcode is rejected unless the postcode holds exactly eight digits; see `Checkout.FormattedCepAccepted` |
| Checkout.FullAddressEmpty | includes/class-woo-envios-checkout.php:83-90 | the assembled address is empty iff every field is "" or "0" |
| Checkout.FullAddress | includes/class-woo-envios-checkout.php:83-84 | the non-empty address fields joined by ", "; see `Checkout.FullAddressEmpty` |
| Checkout.SignatureIgnoresStreet | includes/class-woo-envios-checkout.php:114-115 | street, number and neighbourhood do not change the signature |
| Checkout.SignatureIgnoresCase | includes/class-woo-envios-checkout.php:115 | the signature does not depend on the case of city and state |
| Checkout.SignaturesNeverAgree | includes/class-woo-envios-checkout.php:115 | the checkout signature never equals the one shipping builds for the same address (includes/class-woo-envios-shipping.php:232-245) |
| Checkout.Signature | includes/class-woo-envios-checkout.php:115 | city, state, postcode and country joined by vertical bars and lower-cased, before hashing; see `Checkout.SignatureIgnoresStreet` and `Checkout.SignatureIgnoresCase` |
| Checkout.GeocoderCoords | includes/Services/Geocoder.php:44-64 | a point iff the geocode located the address; the point is its lat/lng |
| Checkout.SessionEntry | includes/class-woo-envios-checkout.php:116-123 | the stored lat/lng are the returned point |
| Checkout.SessionRoundTrip | includes/class-woo-envios-checkout.php:116-123 | shipping reads back the stored point when neither coordinate is zero |
| Checkout.CheckoutHandler.GeocoderGeocode | includes/Services/Geocoder.php:26-65 | empty address: no request; otherwise the coordinates and state changes of `Geocode` |
| Checkout.CheckoutHandler.HandleGeocode | includes/class-woo-envios-checkout.php:54-131 | a bad CEP or an empty address is answered with its error before any geocoding; a failed geocode is an error and leaves the session alone; a success returns the point and, with a session, stores it with the signature |
| Plugin.Lookup | woo-envios.php:168-171 | a key is found iff it is present |
| Plugin.AssignLookup | woo-envios.php:168-171 | after `$a[k] = v`, k holds v, other keys are unchanged, and the key set gains k |
| Plugin.Assign | woo-envios.php:168-171 | `$methods[key] = value`: an existing key keeps its place, a new one is appended; see `Plugin.AssignLookup` |
| Plugin.RegisterShippingMethod | woo-envios.php:166-174 | both methods are registered and every other entry is unchanged |
| Plugin.Select | woo-envios.php:187-193 | each group holds input entries of its kind only |
| Plugin.UnionOfGroups | woo-envios.php:195 | with distinct keys the array union of the groups is their concatenation |
| Plugin.Union | woo-envios.php:195 | PHP array union: the left array, then the entries of the right whose key it lacks; see `Plugin.UnionOfGroups` |
| Plugin.SortShippingRates | woo-envios.php:179-196 | empty input is returned unchanged; otherwise flash rates then the others, as a permutation |
| Plugin.GroupOrderKept | woo-envios.php:187-195 | within each group the input order is kept |
| Plugin.FlashFirst | woo-envios.php:187-195 | no flash rate comes after another rate |
| Plugin.PartitionedPermutation | woo-envios.php:187-195 | nothing is dropped or duplicated |
| Plugin.PartitionedIdempotent | woo-envios.php:187-195 | sorting a sorted list changes nothing |
| Plugin.Partitioned | woo-envios.php:187-195 | every flash rate, then every other rate; see `Plugin.FlashFirst`, `Plugin.PartitionedPermutation` and `Plugin.PartitionedIdempotent` |

## Left out

- Network I/O: `wp_remote_get`/`wp_remote_post`, SOAP, the Correios REST and token calls, OpenWeather, Distance Matrix, Places. Provider answers are inputs.
- `usleep`/`sleep`: the client records the requested waits in milliseconds and does not wait.
- md5: keys and signatures are the strings that would be hashed. `wp_json_encode` of the Correios key is a tuple.
- The weather cache key is the (lat, lng) pair, not the text of the floats.
- Haversine and the Distance Matrix distance enter `calculate_shipping` as numbers in the request.
- `get_weather_multiplier` of shipping, including its store-coordinate check, enters the dynamic multiplier as a number.
- The cube-root volume estimate of `get_package_dimensions`, with its unit factors and per-item defaults, enters as an estimated box. Only the empty-cart box and the rounding and minimum clamp are modelled.
- WordPress storage: options, transients and the cache table are fields or parameters.
  - Transient lifetimes of the breaker counter (1 hour) and of the Correios cache are not enforced by the source code itself. The breaker counter never expires in the model.
  - `clear_expired_cache` and `clear_all_cache` are left out.
- The geocode cache table is read with "expires_at > NOW()". Clock skew between PHP and the database is not modelled.
- WooCommerce's `WC_Settings_API::get_option` is not part of this model. `Shipping.InstanceOption` follows its documented behaviour: a missing key reads as the form field's default, a stored '' as the second argument.
- `sanitize_text_field`, `wp_unslash`, `wc_format_decimal`: inputs are taken as already sanitised.
- Nonce and permission checks, the logger, `error_log` and admin e-mails.
- `WC()->session->save_data()` and its race workaround.
- `autocomplete_address`, `get_place_details`, `calculate_distance` and `test_connection` are left out: they are HTTP wrappers.
- Floating point: money and multipliers are exact reals.
  - `round()` is exact half-away-from-zero rounding.
  - A PHP float may print an integer percentage such as `(int)((1.15 - 1) * 100)` as 14; the model gives 15.
- `sprintf` and `(float)`: the tier label from `sprintf('%.1f')` is modelled exactly, and other formatted outputs are written as strings. `(float)` of a string reads an optional sign, digits and one decimal point, without exponents.
- GoogleMaps.ValidApiKey: the key is a sequence of characters and its length is counted in characters, while `strlen` (includes/class-woo-envios-google-maps.php:106) counts bytes. A key holding a multi-byte character, such as "AIza" followed by 34 ASCII characters and one "é", is 40 bytes and refused by the source but 39 characters and accepted by the model. Keys issued by Google are ASCII, where the two agree.
- GoogleMaps.ValidApiKeyFormat: states the length test in characters, not bytes, for the reason given for `GoogleMaps.ValidApiKey`.
- Correios.ItemWeight: counts an unweighted product as 0.3 kg after the unit conversion, the corrected behaviour of the row under "## Findings"; the source (includes/Services/class-woo-envios-correios.php:520-536) sets 0.3 in the store's unit before converting. `Correios.TotalWeightAsWritten` keeps the source's order.
- Correios.TotalWeight: sums `Correios.ItemWeight`, so it carries the same correction. With unit "g" and 200 unweighted products the source weighs 0.3 kg (its floor) and quotes, while the model weighs 60 kg and rejects; below 30 kg the cache key and the contingency weight surcharge differ the same way.
- Correios.ComputeTotalWeight: computes `Correios.TotalWeight`, so it carries the same correction.
- Correios.Quote: weighs the package with the corrected `Correios.TotalWeight`, not the as-written weight. With unit "g" and 200 unweighted products the source weighs 0.3 kg (its floor) and quotes, while the model weighs 60 kg and rejects; below 30 kg the cache key and the contingency weight surcharge differ the same way.
- Correios.QuoteRejects: its 30 kg test is on the corrected weight; a cart of unweighted products in grams is rejected by the model sooner than by the source.
- Correios.QuoteFailsWithoutContingency: its weight premise is on the corrected weight.
- Correios.CorreiosService.Calculate: weighs the package with `Correios.ComputeTotalWeight`, the corrected weight.
- Shipping.DynamicMultiplier: the total is clamped from above only (includes/class-woo-envios-shipping.php:289-292), and the model follows the code. The only lower bound anywhere in the plugin is the settings form's `min="1"` on the ceiling field (includes/class-woo-envios-admin.php:614); the browser enforces it, but the option registration (includes/class-woo-envios-admin.php:325) does not. A stored ceiling below 1.0 therefore makes the total that ceiling (see `Shipping.CeilingBelowOneDiscounts`).
- The source's post-loop fallback in `geocode_address` (includes/class-woo-envios-google-maps.php:261-263) is unreachable: every branch on the third attempt returns. The model's loop has no such exit.
- PHP arrays are sequences of entries with distinct keys. `Plugin.SortShippingRates` requires distinct keys, as a PHP array always has them.
- Shipping.SessionCoordinates: the session `lat`/`lng` are taken as numbers. A non-numeric stored string is not modelled.

## Findings

| source | as written | input that shows it | evidently intended | confidence | as-written member | corrected member |
|---|---|---|---|---|---|---|
| includes/Services/class-woo-envios-correios.php:519-537 | the 0.3 default for an unweighted product is set before the unit conversion, so it is read in the store's unit | store unit "g" and ten unweighted products: total 0.3 kg | 300 g per unweighted product, as the comment says: 3 kg | not executed | Correios.UnitDefaultCounterexample | Correios.DefaultWeightIsThreeHundredGrams |
