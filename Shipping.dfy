/** The radius shipping method (`Woo_Envios_Shipping_Method`): the dynamic price
    multiplier (peak hours, weekend, rain, ceiling) and `calculate_shipping`, which
    turns the customer's session coordinates into at most one rate from the tier
    table. Clock readings, the route distance, the straight-line (Haversine) distance
    and the weather factor are inputs. */
module Shipping {
  import opened Php
  import opened Tiers

  const MethodId: string := "woo_envios_radius"
  const DefaultTitle: string := "Entrega Flash"
  const DefaultPeakName: string := "Pico"
  const DefaultWeekendMultiplier: real := 1.0
  const DefaultMaxMultiplier: real := 2.0

  // ------------------------------------------------------------ clock strings

  /** PHP's comparison of two non-numeric strings: byte-wise, a prefix first. The
      current time "HH:MM" contains ':' and is never numeric, so every comparison of
      a peak window bound with it is of this kind. */
  predicate LexLe(a: string, b: string)
    decreases |a|
  {
    a == [] || (b != [] && (a[0] < b[0] || (a[0] == b[0] && LexLe(a[1..], b[1..]))))
  }

  /** A zero-padded "HH:MM" reading with minutes below 60. */
  predicate IsClock(s: string) {
    |s| == 5 && IsDigit(s[0]) && IsDigit(s[1]) && s[2] == ':' && IsDigit(s[3]) && IsDigit(s[4])
    && DigitValue(s[3]) < 6
  }

  function ClockMinutes(s: string): nat
    requires IsClock(s)
  {
    (DigitValue(s[0]) * 10 + DigitValue(s[1])) * 60 + DigitValue(s[3]) * 10 + DigitValue(s[4])
  }

  lemma DigitOrder(c: char, d: char)
    requires IsDigit(c) && IsDigit(d)
    ensures c < d <==> DigitValue(c) < DigitValue(d)
    ensures c == d <==> DigitValue(c) == DigitValue(d)
  {
  }

  /** Two digits compare as strings the way their values compare. */
  lemma TwoDigitOrder(x: string, y: string)
    requires |x| == 2 && |y| == 2 && IsDigit(x[0]) && IsDigit(x[1]) && IsDigit(y[0]) && IsDigit(y[1])
    ensures LexLe(x, y) <==> DigitValue(x[0]) * 10 + DigitValue(x[1]) <= DigitValue(y[0]) * 10 + DigitValue(y[1])
  {
    DigitOrder(x[0], y[0]);
    DigitOrder(x[1], y[1]);
    assert x[1..][1..] == [];
    assert LexLe(x[1..], y[1..]) <==> x[1] <= y[1];
  }

  /** On zero-padded clock readings the string order is the order of the times. */
  lemma ClockOrder(a: string, b: string)
    requires IsClock(a) && IsClock(b)
    ensures LexLe(a, b) <==> ClockMinutes(a) <= ClockMinutes(b)
  {
    TwoDigitOrder(a[..2], b[..2]);
    TwoDigitOrder(a[3..], b[3..]);
    var ha, hb := DigitValue(a[0]) * 10 + DigitValue(a[1]), DigitValue(b[0]) * 10 + DigitValue(b[1]);
    var ma, mb := DigitValue(a[3]) * 10 + DigitValue(a[4]), DigitValue(b[3]) * 10 + DigitValue(b[4]);
    assert ClockMinutes(a) == ha * 60 + ma && ClockMinutes(b) == hb * 60 + mb;
    assert LexLe(a[2..], b[2..]) <==> ma <= mb by {
      assert a[2..][1..] == a[3..] && b[2..][1..] == b[3..];
    }
    assert LexLe(a, b) <==> LexLe(a[..2], b[..2]) && (ha < hb || (ha == hb && ma <= mb)) by {
      DigitOrder(a[0], b[0]);
      DigitOrder(a[1], b[1]);
      assert a[1..][1..] == a[2..] && b[1..][1..] == b[2..];
      assert a[..2][1..] == [a[1]] && b[..2][1..] == [b[1]];
    }
    if ha < hb {
      assert ha * 60 + ma < (ha + 1) * 60 <= hb * 60;
    } else if hb < ha {
      assert hb * 60 + mb < (hb + 1) * 60 <= ha * 60;
    }
  }

  // ------------------------------------------------------------ peak hours

  /** A configured peak window; each key may be missing. */
  datatype PeakPeriod = PeakPeriod(start: Option<string>, end: Option<string>, multiplier: Option<real>,
                                   name: Option<string>)

  /** A window counts only when both ends are set (PHP-non-empty). */
  predicate HasWindow(p: PeakPeriod) {
    !EmptyString(p.start.GetOr("")) && !EmptyString(p.end.GetOr(""))
  }

  /** The window holds `now`, both ends included. */
  predicate Active(p: PeakPeriod, now: string) {
    HasWindow(p) && LexLe(p.start.value, now) && LexLe(now, p.end.value)
  }

  /** Index of the first active window from `from` on. */
  function FirstActiveFrom(periods: seq<PeakPeriod>, now: string, from: nat): (r: Option<nat>)
    requires from <= |periods|
    ensures r.Some? ==> from <= r.value < |periods|
    decreases |periods| - from
  {
    if from == |periods| then None
    else if Active(periods[from], now) then Some(from)
    else FirstActiveFrom(periods, now, from + 1)
  }

  /** The index found is active and every window between `from` and it is not; None
      means no window from `from` on is active. */
  lemma {:induction false} FirstActiveFromSpec(periods: seq<PeakPeriod>, now: string, from: nat)
    requires from <= |periods|
    ensures var r := FirstActiveFrom(periods, now, from);
      (r.Some? ==> Active(periods[r.value], now) && forall j :: from <= j < r.value ==> !Active(periods[j], now))
      && (r.None? <==> forall j :: from <= j < |periods| ==> !Active(periods[j], now))
    decreases |periods| - from
  {
    if from < |periods| && !Active(periods[from], now) {
      FirstActiveFromSpec(periods, now, from + 1);
    }
  }

  /** The percentage a factor adds, as `(int) ((m - 1) * 100)` computes it. */
  function Percent(m: real): int {
    TruncToInt((m - 1.0) * 100.0)
  }

  datatype PeakResult = PeakResult(multiplier: real, caption: string)

  function PeriodMultiplier(p: PeakPeriod): real {
    p.multiplier.GetOr(1.0)
  }

  /** '%s +%d%%' with the window's name (or "Pico"). */
  function PeakLabel(p: PeakPeriod): string {
    p.name.GetOr(DefaultPeakName) + " +" + IntToString(Percent(PeriodMultiplier(p))) + "%"
  }

  /** `get_peak_hour_multiplier`: the factor and label of the first active window, or
      1.0 and "" when none is. */
  function PeakFactor(periods: seq<PeakPeriod>, now: string): PeakResult {
    match FirstActiveFrom(periods, now, 0)
    case None => PeakResult(1.0, "")
    case Some(i) => PeakResult(PeriodMultiplier(periods[i]), PeakLabel(periods[i]))
  }

  /** With no active window the factor is 1.0 with an empty label; otherwise it is the
      first active window's factor and label. */
  lemma PeakFactorFirstMatch(periods: seq<PeakPeriod>, now: string)
    ensures (forall j :: 0 <= j < |periods| ==> !Active(periods[j], now)) ==>
      PeakFactor(periods, now) == PeakResult(1.0, "")
    ensures forall i :: 0 <= i < |periods| && Active(periods[i], now) && (forall j :: 0 <= j < i ==> !Active(periods[j], now)) ==>
      PeakFactor(periods, now) == PeakResult(PeriodMultiplier(periods[i]), PeakLabel(periods[i]))
  {
    var first := FirstActiveFrom(periods, now, 0);
    FirstActiveFromSpec(periods, now, 0);
    forall i | 0 <= i < |periods| && Active(periods[i], now) && (forall j :: 0 <= j < i ==> !Active(periods[j], now))
      ensures first == Some(i)
    {
      assert first.Some?;
      assert !(i < first.value);
      assert !(first.value < i);
    }
  }

  /** The loop of `get_peak_hour_multiplier`. */
  method GetPeakHourMultiplier(periods: seq<PeakPeriod>, now: string) returns (r: PeakResult)
    ensures r == PeakFactor(periods, now)
  {
    if periods == [] {
      return PeakResult(1.0, "");
    }
    var i := 0;
    while i < |periods|
      invariant 0 <= i <= |periods|
      invariant FirstActiveFrom(periods, now, 0) == FirstActiveFrom(periods, now, i)
    {
      var period := periods[i];
      if EmptyString(period.start.GetOr("")) || EmptyString(period.end.GetOr("")) {
        i := i + 1;
        continue;
      }
      if LexLe(period.start.value, now) && LexLe(now, period.end.value) {
        var multiplier := period.multiplier.GetOr(1.0);
        var percentage := TruncToInt((multiplier - 1.0) * 100.0);
        var caption := period.name.GetOr(DefaultPeakName) + " +" + IntToString(percentage) + "%";
        return PeakResult(multiplier, caption);
      }
      i := i + 1;
    }
    return PeakResult(1.0, "");
  }

  /** String order is transitive. */
  lemma {:induction false} LexLeTransitive(a: string, b: string, c: string)
    requires LexLe(a, b) && LexLe(b, c)
    ensures LexLe(a, c)
    decreases |a|
  {
    if a != [] && a[0] == b[0] && b[0] == c[0] {
      LexLeTransitive(a[1..], b[1..], c[1..]);
    }
  }

  /** A window whose end sorts before its start (one crossing midnight) never applies. */
  lemma InvertedWindowNeverActive(p: PeakPeriod, now: string)
    requires HasWindow(p) && !LexLe(p.start.value, p.end.value)
    ensures !Active(p, now)
  {
    if Active(p, now) {
      LexLeTransitive(p.start.value, now, p.end.value);
    }
  }

  // ------------------------------------------------------------ dynamic multiplier

  /** `(int) current_time('w')` is 0 (Sunday) or 6 (Saturday). */
  predicate IsWeekend(weekday: int) {
    weekday == 0 || weekday == 6
  }

  /** The pricing options: the dynamic-pricing switch, the peak windows, and the
      weekend and ceiling factors (None when unset). */
  datatype Pricing = Pricing(enabled: bool, peakHours: seq<PeakPeriod>, weekend: Option<real>,
                             maxMultiplier: Option<real>)

  function Ceiling(p: Pricing): real { p.maxMultiplier.GetOr(DefaultMaxMultiplier) }
  function WeekendFactor(p: Pricing): real { p.weekend.GetOr(DefaultWeekendMultiplier) }

  /** The clock readings a price depends on. */
  datatype Clock = Clock(time: string, weekday: int)

  /** An applied surcharge and the line it adds to the breakdown. */
  datatype Factor = Factor(value: real, reason: string)

  /** 'Fim de semana +%d%%' */
  function WeekendReason(m: real): string {
    "Fim de semana +" + IntToString(Percent(m)) + "%"
  }

  /** 'Chuva +%d%%' */
  function RainReason(m: real): string {
    "Chuva +" + IntToString(Percent(m)) + "%"
  }

  /** The surcharges that apply, in order peak, weekend, rain; each only above 1.0. */
  function AppliedFactors(p: Pricing, clock: Clock, weather: real): (fs: seq<Factor>)
    ensures forall i :: 0 <= i < |fs| ==> fs[i].value > 1.0
    ensures |fs| <= 3
  {
    var peak := PeakFactor(p.peakHours, clock.time);
    (if peak.multiplier > 1.0 then [Factor(peak.multiplier, peak.caption)] else [])
    + (if IsWeekend(clock.weekday) && WeekendFactor(p) > 1.0
       then [Factor(WeekendFactor(p), WeekendReason(WeekendFactor(p)))] else [])
    + (if weather > 1.0 then [Factor(weather, RainReason(weather))] else [])
  }

  /** The product of the factors, left to right from 1.0. */
  function Product(fs: seq<Factor>): real
    decreases |fs|
  {
    if fs == [] then 1.0 else Product(fs[..|fs| - 1]) * fs[|fs| - 1].value
  }

  /** The breakdown lines, in the order the factors were applied. */
  function Reasons(fs: seq<Factor>): (rs: seq<string>)
    decreases |fs|
  {
    if fs == [] then [] else Reasons(fs[..|fs| - 1]) + [fs[|fs| - 1].reason]
  }

  /** Applying one more factor multiplies the product by it and adds its line last. */
  lemma AppendFactor(fs: seq<Factor>, product: real, reasons: seq<string>, value: real, reason: string)
    requires product == Product(fs) && reasons == Reasons(fs)
    ensures Product(fs + [Factor(value, reason)]) == product * value
    ensures Reasons(fs + [Factor(value, reason)]) == reasons + [reason]
  {
    assert (fs + [Factor(value, reason)])[..|fs|] == fs;
  }

  /** One breakdown line per applied factor, each that factor's reason. */
  lemma {:induction false} ReasonsMatchFactors(fs: seq<Factor>)
    ensures |Reasons(fs)| == |fs|
    ensures forall i :: 0 <= i < |fs| ==> Reasons(fs)[i] == fs[i].reason
    decreases |fs|
  {
    if fs != [] {
      ReasonsMatchFactors(fs[..|fs| - 1]);
    }
  }

  datatype Multiplier = Multiplier(total: real, reasons: seq<string>)

  /** The product of the factors cut down to the ceiling, with their breakdown. */
  function Capped(fs: seq<Factor>, ceiling: real): (r: Multiplier)
    ensures r.total <= ceiling && r.total <= Product(fs) && r.reasons == Reasons(fs)
    ensures Product(fs) <= ceiling ==> r.total == Product(fs)
    ensures Product(fs) > ceiling ==> r.total == ceiling
  {
    Multiplier(if Product(fs) > ceiling then ceiling else Product(fs), Reasons(fs))
  }

  /** `calculate_dynamic_multiplier`, specified: switched off it is 1.0 with no reasons;
      otherwise the product of the applied surcharges, cut down to the ceiling. */
  function DynamicMultiplier(p: Pricing, clock: Clock, weather: real): (r: Multiplier)
    ensures !p.enabled ==> r == Multiplier(1.0, [])
    ensures p.enabled ==> var product := Product(AppliedFactors(p, clock, weather));
      r.total <= Ceiling(p) && r.total <= product && (r.total == product || r.total == Ceiling(p))
    ensures p.enabled ==> r.reasons == Reasons(AppliedFactors(p, clock, weather))
  {
    if !p.enabled then Multiplier(1.0, [])
    else Capped(AppliedFactors(p, clock, weather), Ceiling(p))
  }

  /** Surcharges above 1.0 multiply to at least 1.0 (strictly more when there is one). */
  lemma {:induction false} ProductAtLeastOne(fs: seq<Factor>)
    requires forall i :: 0 <= i < |fs| ==> fs[i].value > 1.0
    ensures Product(fs) >= 1.0
    ensures fs != [] ==> Product(fs) > 1.0
    decreases |fs|
  {
    if fs != [] {
      var init := fs[..|fs| - 1];
      ProductAtLeastOne(init);
      var a, b := Product(init), fs[|fs| - 1].value;
      assert a * b >= 1.0 * b by {
        assert (a - 1.0) * b >= 0.0;
      }
    }
  }

  /** With a ceiling of at least 1.0 the multiplier is never a discount and never above
      the ceiling, and it is exactly 1.0 when nothing applies. */
  lemma MultiplierBounds(p: Pricing, clock: Clock, weather: real)
    requires p.enabled && Ceiling(p) >= 1.0
    ensures var r := DynamicMultiplier(p, clock, weather);
      1.0 <= r.total <= Ceiling(p)
      && (AppliedFactors(p, clock, weather) == [] ==> r.total == 1.0 && r.reasons == [])
  {
    ProductAtLeastOne(AppliedFactors(p, clock, weather));
  }

  /** The ceiling is applied from above only: a ceiling configured below 1.0 turns the
      multiplier into a discount even when no surcharge applies. */
  lemma CeilingBelowOneDiscounts(p: Pricing, clock: Clock, weather: real)
    requires p.enabled && Ceiling(p) < 1.0
    ensures DynamicMultiplier(p, clock, weather).total == Ceiling(p)
  {
    ProductAtLeastOne(AppliedFactors(p, clock, weather));
  }

  /** The weekend line appears exactly on Saturdays and Sundays with a factor above 1.0;
      the rain line exactly with a weather factor above 1.0. */
  lemma BreakdownLines(p: Pricing, clock: Clock, weather: real)
    ensures var fs := AppliedFactors(p, clock, weather);
      var peak := PeakFactor(p.peakHours, clock.time);
      |fs| == (if peak.multiplier > 1.0 then 1 else 0)
              + (if IsWeekend(clock.weekday) && WeekendFactor(p) > 1.0 then 1 else 0)
              + (if weather > 1.0 then 1 else 0)
      && (weather > 1.0 ==> fs[|fs| - 1] == Factor(weather, RainReason(weather)))
      && (peak.multiplier > 1.0 ==> fs[0] == Factor(peak.multiplier, peak.caption))
  {
  }

  /** The surcharge steps of `calculate_dynamic_multiplier`: each
      factor above 1.0 multiplies the running total and adds its line. */
  method ApplyFactors(p: Pricing, clock: Clock, weather: real) returns (multiplier: real, reasons: seq<string>)
    ensures multiplier == Product(AppliedFactors(p, clock, weather))
    ensures reasons == Reasons(AppliedFactors(p, clock, weather))
  {
    multiplier := 1.0;
    reasons := [];
    ghost var applied: seq<Factor> := [];
    var peak := GetPeakHourMultiplier(p.peakHours, clock.time);
    if peak.multiplier > 1.0 {
      AppendFactor(applied, multiplier, reasons, peak.multiplier, peak.caption);
      applied := applied + [Factor(peak.multiplier, peak.caption)];
      multiplier := multiplier * peak.multiplier;
      reasons := reasons + [peak.caption];
    }
    if IsWeekend(clock.weekday) {
      var weekendMult := p.weekend.GetOr(DefaultWeekendMultiplier);
      if weekendMult > 1.0 {
        var reason := WeekendReason(weekendMult);
        AppendFactor(applied, multiplier, reasons, weekendMult, reason);
        applied := applied + [Factor(weekendMult, reason)];
        multiplier := multiplier * weekendMult;
        reasons := reasons + [reason];
      }
    }
    if weather > 1.0 {
      var reason := RainReason(weather);
      AppendFactor(applied, multiplier, reasons, weather, reason);
      applied := applied + [Factor(weather, reason)];
      multiplier := multiplier * weather;
      reasons := reasons + [reason];
    }
    assert applied == AppliedFactors(p, clock, weather);
  }

  /** `calculate_dynamic_multiplier`; `weather` is the rain factor for the store's point. */
  method CalculateDynamicMultiplier(p: Pricing, clock: Clock, weather: real) returns (r: Multiplier)
    ensures r == DynamicMultiplier(p, clock, weather)
  {
    if !p.enabled {
      return Multiplier(1.0, []);
    }
    var multiplier, reasons := ApplyFactors(p, clock, weather);
    var maxMultiplier := p.maxMultiplier.GetOr(DefaultMaxMultiplier);
    if multiplier > maxMultiplier {
      multiplier := maxMultiplier;
    }
    return Multiplier(multiplier, reasons);
  }

  // ------------------------------------------------------------ calculate_shipping

  datatype Coordinates = Coordinates(lat: real, lng: real)

  /** What the checkout stored in the session under `woo_envios_coords`. */
  datatype StoredCoords = StoredCoords(lat: real, lng: real, signature: string)

  /** `build_destination_signature`: md5 of the lower-cased
      "address_1|city|state|postcode|country" (the hash is left out; its input is kept).
      It is computed and then not used. */
  function DestinationSignature(address1: string, city: string, state: string, postcode: string,
                                country: string): string
  {
    Lower(Join([address1, city, state, postcode, country], "|"))
  }

  /** `get_session_coordinates`: no session, nothing stored, or a zero (PHP-empty)
      latitude or longitude gives nothing; the stored signature is not compared. */
  function SessionCoordinates(sessionAvailable: bool, stored: Option<StoredCoords>): (r: Option<Coordinates>)
    ensures r.Some? <==> sessionAvailable && stored.Some? && stored.value.lat != 0.0 && stored.value.lng != 0.0
    ensures r.Some? ==> r.value == Coordinates(stored.value.lat, stored.value.lng)
  {
    if !sessionAvailable || stored.None? then None
    else if stored.value.lat == 0.0 || stored.value.lng == 0.0 then None
    else Some(Coordinates(stored.value.lat, stored.value.lng))
  }

  /** Coordinates stored for one address are used for any other: only the point
      matters, whatever signature was stored with it. */
  lemma SignatureIgnored(sessionAvailable: bool, lat: real, lng: real, sig1: string, sig2: string)
    ensures SessionCoordinates(sessionAvailable, Some(StoredCoords(lat, lng, sig1)))
            == SessionCoordinates(sessionAvailable, Some(StoredCoords(lat, lng, sig2)))
  {
  }

  /** The route service's answer: an error, an empty answer, or a distance in metres. */
  datatype Route = RouteError | RouteEmpty | Routed(distanceValue: real)

  /** The distance used for pricing: the routed metres as km rounded to 2 places, or
      the straight-line distance when routing gave nothing. */
  function TripDistance(route: Route, straightLineKm: real): (d: real)
    ensures route.Routed? ==> d == Round2(route.distanceValue / 1000.0)
    ensures !route.Routed? ==> d == straightLineKm
  {
    match route
    case Routed(metres) => Round2(metres / 1000.0)
    case _ => straightLineKm
  }

  /** The routed distance is the exact kilometres to within 5 m. */
  lemma TripDistanceClose(metres: real)
    ensures metres / 1000.0 - 0.005 <= TripDistance(Routed(metres), 0.0) <= metres / 1000.0 + 0.005
  {
    Round2Close(metres / 1000.0);
  }

  datatype RateMeta = RateMeta(distance: real, basePrice: real, multiplier: real, breakdown: seq<string>,
                               store: Coordinates, customer: Coordinates)

  datatype ShippingRate = ShippingRate(id: string, title: string, cost: real, meta: RateMeta)

  /** Everything one `calculate_shipping` call reads besides the method's settings;
      `tiersOption` is the stored tier option, which `match_tier_by_distance` reads
      through `get_tiers` (see `Tiers.GetTiers`). */
  datatype Request = Request(
    store: Coordinates, sessionAvailable: bool, stored: Option<StoredCoords>,
    route: Route, straightLineKm: real, tiersOption: Option<StoredTiers>,
    pricing: Pricing, clock: Clock, weather: real)

  /** The rate `calculate_shipping` adds, if any. */
  function ShippingQuote(enabled: string, title: string, q: Request): (r: Option<ShippingRate>)
    ensures r.Some? ==> r.value.id == MethodId && r.value.title == title
  {
    QuoteWith(enabled, title, q, DynamicMultiplier(q.pricing, q.clock, q.weather))
  }

  /** `round($final_price, 2)` with the final price the base price times the multiplier. */
  function RateCost(price: real, total: real): real {
    Round2(price * total)
  }

  lemma ScaleMonotone(a: real, x: real, y: real)
    requires a >= 0.0 && x <= y
    ensures a * x <= a * y
  {
    assert a * y - a * x == a * (y - x);
  }

  /** A larger multiplier never lowers a non-negative price. */
  lemma RateCostMonotone(price: real, lower: real, higher: real)
    requires price >= 0.0 && lower <= higher
    ensures RateCost(price, lower) <= RateCost(price, higher)
  {
    ScaleMonotone(price, lower, higher);
    Round2Monotone(price * lower, price * higher);
  }

  /** The rate for a given multiplier `m`. */
  function QuoteWith(enabled: string, title: string, q: Request, m: Multiplier): (r: Option<ShippingRate>)
    ensures r.Some? ==> r.value.id == MethodId && r.value.title == title
  {
    if enabled != "yes" then None
    else if q.store.lat == 0.0 || q.store.lng == 0.0 then None
    else
      var customer := SessionCoordinates(q.sessionAvailable, q.stored);
      if customer.None? then None
      else
        var distance := TripDistance(q.route, q.straightLineKm);
        var tier := MatchTier(distance, GetTiers(q.tiersOption));
        if tier.None? then None
        else
          Some(ShippingRate(MethodId, title, RateCost(tier.value.price, m.total),
                            RateMeta(distance, tier.value.price, m.total, m.reasons, q.store, customer.value)))
  }

  /** No rate when the method is off, the store has no coordinates, the session has none,
      or the distance is beyond every tier. Otherwise the rate costs the matched tier's
      price times the multiplier, rounded to cents, and its metadata records the
      distance, base price, multiplier and reasons. */
  lemma QuoteContents(enabled: string, title: string, q: Request, m: Multiplier)
    ensures var r := QuoteWith(enabled, title, q, m);
      var distance := TripDistance(q.route, q.straightLineKm);
      var tier := MatchTier(distance, GetTiers(q.tiersOption));
      (r.None? <==> enabled != "yes" || q.store.lat == 0.0 || q.store.lng == 0.0
                    || SessionCoordinates(q.sessionAvailable, q.stored).None? || tier.None?)
      && (r.Some? ==>
            tier.Some? && tier.value in GetTiers(q.tiersOption) && distance <= tier.value.distance
            && r.value.meta.basePrice == tier.value.price && r.value.cost == RateCost(tier.value.price, m.total)
            && r.value.meta.distance == distance && r.value.meta.multiplier == m.total
            && r.value.meta.breakdown == m.reasons
            && r.value.meta.customer == SessionCoordinates(q.sessionAvailable, q.stored).value)
  {
  }

  /** With a non-negative price the surcharge never exceeds the ceiling, and with
      dynamic pricing off the rate is the tier price. */
  lemma CostWithinCeiling(enabled: string, title: string, q: Request)
    requires ShippingQuote(enabled, title, q).Some?
    requires ShippingQuote(enabled, title, q).value.meta.basePrice >= 0.0
    ensures var r := ShippingQuote(enabled, title, q).value;
      (q.pricing.enabled ==> r.cost <= RateCost(r.meta.basePrice, Ceiling(q.pricing)))
      && (!q.pricing.enabled ==> r.cost == RateCost(r.meta.basePrice, 1.0))
  {
    var m := DynamicMultiplier(q.pricing, q.clock, q.weather);
    var r := QuoteWith(enabled, title, q, m).value;
    QuoteContents(enabled, title, q, m);
    if q.pricing.enabled {
      RateCostMonotone(r.meta.basePrice, m.total, Ceiling(q.pricing));
    }
  }

  /** With the built-in table nothing farther than 30 km is served. */
  lemma DefaultTableReach(enabled: string, title: string, q: Request)
    requires GetTiers(q.tiersOption) == DefaultTiers
    requires ShippingQuote(enabled, title, q).Some?
    ensures ShippingQuote(enabled, title, q).value.meta.distance <= 30.0
  {
    QuoteContents(enabled, title, q, DynamicMultiplier(q.pricing, q.clock, q.weather));
    DefaultTableRange(TripDistance(q.route, q.straightLineKm));
  }

  /** An instance setting read with `get_option(key, emptyValue)`: a missing key reads
      as the form field's default and a stored '' as `emptyValue`; for `enabled` and
      `title` the two are the same string. Any other stored value, "0" included, is
      returned as stored. */
  function InstanceOption(stored: Option<string>, emptyValue: string): string {
    if stored.Some? && stored.value != "" then stored.value else emptyValue
  }

  class ShippingMethod {
    /** The instance's `enabled` setting ("yes" unless changed). */
    var enabled: string
    var title: string
    /** The rates added through `add_rate`. */
    var rates: seq<ShippingRate>

    constructor(enabledOption: Option<string>, titleOption: Option<string>)
      ensures enabledOption.Some? && enabledOption.value != "" ==> enabled == enabledOption.value
      ensures enabledOption.None? || enabledOption.value == "" ==> enabled == "yes"
      ensures titleOption.Some? && titleOption.value != "" ==> title == titleOption.value
      ensures titleOption.None? || titleOption.value == "" ==> title == DefaultTitle
      ensures enabled != "" && title != "" && rates == []
    {
      enabled := InstanceOption(enabledOption, "yes");
      title := InstanceOption(titleOption, DefaultTitle);
      rates := [];
    }

    /** `calculate_shipping`: adds at most one rate. */
    method CalculateShipping(q: Request)
      modifies this
      ensures rates == old(rates) + (match ShippingQuote(enabled, title, q) case None => [] case Some(r) => [r])
      ensures enabled == old(enabled) && title == old(title)
    {
      if enabled != "yes" {
        return;
      }
      if q.store.lat == 0.0 || q.store.lng == 0.0 {
        return;
      }
      var customer := SessionCoordinates(q.sessionAvailable, q.stored);
      if customer.None? {
        return;
      }
      var distance;
      if q.route.RouteError? || q.route.RouteEmpty? {
        distance := q.straightLineKm;
      } else {
        distance := Round2(q.route.distanceValue / 1000.0);
      }
      var tier := MatchTier(distance, GetTiers(q.tiersOption));
      if tier.None? {
        return;
      }
      var basePrice := tier.value.price;
      var m := CalculateDynamicMultiplier(q.pricing, q.clock, q.weather);
      var rate := ShippingRate(MethodId, title, RateCost(basePrice, m.total),
                               RateMeta(distance, basePrice, m.total, m.reasons, q.store, customer.value));
      rates := rates + [rate];
    }
  }
}
