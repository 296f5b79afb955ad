/** Carrier quoting through the Correios web service (`Woo_Envios\Services\Correios`):
    input validation, the transient cache, parsing of the service answer, the
    profit margin, and the contingency table used when the service fails. */
module Correios {
  import opened Php

  // ------------------------------------------------------------ constants

  const MinHeight: real := 2.0
  const MinWidth: real := 11.0
  const MinLength: real := 16.0
  const MaxWeight: real := 30.0
  /** Lifetime of a cached quote, in seconds (12 hours). */
  const CacheDuration: int := 43200

  const DefaultOriginCep: string := "38400-000"
  /** `DefaultOriginCep` with its hyphen removed. */
  const DefaultOriginDigits: string := "38400000"
  const PacCode: string := "04510"
  const SedexCode: string := "04014"
  const DefaultServices: seq<string> := [PacCode, SedexCode]

  const AvailableServices: map<string, string> := map[
    "04510" := "PAC",
    "04014" := "SEDEX",
    "04782" := "SEDEX 10",
    "04790" := "SEDEX Hoje"
  ]

  /** A shipping option offered to the customer. */
  datatype Rate = Rate(id: string, code: string, title: string, cost: real, deadline: int)

  // ------------------------------------------------------------ CEP

  /** `sanitize_cep`: only the digits, in order. Applying it again changes nothing. */
  function SanitizeCep(cep: string): (r: string)
    ensures AllDigits(r)
    ensures IsSubsequence(r, cep)
    ensures DigitsOnly(r) == r
    ensures AllDigits(cep) ==> r == cep
  {
    DigitsOnlyIsSubsequence(cep);
    DigitsOnlyIdempotent(cep);
    if AllDigits(cep) then DigitsOnlyKeepsDigits(cep); DigitsOnly(cep) else DigitsOnly(cep)
  }

  /** The default origin CEP, cleaned, is the eight digits the constructor falls back to. */
  lemma DefaultOriginSanitized()
    ensures SanitizeCep(DefaultOriginCep) == DefaultOriginDigits
    ensures |DefaultOriginDigits| == 8
  {
    DigitsOnlyCepExample();
  }

  // ------------------------------------------------------------ configuration

  /** The stored `woo_envios_correios_services` option. */
  datatype StoredServices = ServicesScalar | ServicesArray(codes: seq<string>)

  /** Services from the option: a missing, non-array or empty value gives PAC and SEDEX. */
  function ServicesSetting(stored: Option<StoredServices>): (r: seq<string>)
    ensures r != []
    ensures stored.Some? && stored.value.ServicesArray? && stored.value.codes != [] ==> r == stored.value.codes
  {
    match stored
    case Some(ServicesArray(codes)) => if codes == [] then DefaultServices else codes
    case _ => DefaultServices
  }

  /** Options read at quote time. */
  datatype Options = Options(
    enabled: bool,
    contingencyEnabled: bool,
    customRates: map<string, RegionRates>,
    weightUnit: string)

  // ------------------------------------------------------------ package

  datatype Product = Product(weight: real)
  /** A cart line; `product` is None when the line has no product object. */
  datatype Item = Item(product: Option<Product>, quantity: int)
  datatype Box = Box(height: real, width: real, length: real)

  /** The destination and the cart. `volumetricBox` is the box estimated from the
      item volumes before the Correios minimums are applied. */
  datatype Package = Package(
    contents: seq<Item>,
    postcode: Option<string>,
    state: Option<string>,
    volumetricBox: Box)

  /** A weight in the store's unit, in kilograms. Any other unit is taken as kg. */
  function ConvertToKg(w: real, unit: string): real {
    if unit == "g" then w / 1000.0
    else if unit == "lbs" then w * 0.453592
    else if unit == "oz" then w * 0.0283495
    else w
  }

  /** One unit of a product, in kilograms; a product with no weight counts as 300 g. */
  function ItemWeight(p: Product, unit: string): (r: real)
    ensures p.weight <= 0.0 ==> r == 0.3
    ensures p.weight > 0.0 ==> r == ConvertToKg(p.weight, unit)
  {
    if p.weight <= 0.0 then 0.3 else ConvertToKg(p.weight, unit)
  }

  /** The same, as the source writes it: the 0.3 default is put in the store's unit
      and then converted. */
  function ItemWeightAsWritten(p: Product, unit: string): real {
    ConvertToKg(if p.weight <= 0.0 then 0.3 else p.weight, unit)
  }

  /** Sum of weight times quantity over the lines that have a product. */
  function WeightSum(items: seq<Item>, unit: string): real
    decreases |items|
  {
    if items == [] then 0.0
    else
      var last := items[|items| - 1];
      WeightSum(items[..|items| - 1], unit)
        + (if last.product.Some? then ItemWeight(last.product.value, unit) * last.quantity as real else 0.0)
  }

  function WeightSumAsWritten(items: seq<Item>, unit: string): real
    decreases |items|
  {
    if items == [] then 0.0
    else
      var last := items[|items| - 1];
      WeightSumAsWritten(items[..|items| - 1], unit)
        + (if last.product.Some? then ItemWeightAsWritten(last.product.value, unit) * last.quantity as real else 0.0)
  }

  /** `get_total_weight` with the 300 g default applied in kilograms: 0.3 kg for an
      empty cart, otherwise the line sum but never below 0.3 kg. */
  function TotalWeight(contents: seq<Item>, unit: string): (r: real)
    ensures r >= 0.3
    ensures contents == [] ==> r == 0.3
    ensures contents != [] ==> r == Max(WeightSum(contents, unit), 0.3)
  {
    if contents == [] then 0.3 else Max(WeightSum(contents, unit), 0.3)
  }

  /** `get_total_weight` exactly as the source computes it. */
  function TotalWeightAsWritten(contents: seq<Item>, unit: string): (r: real)
    ensures r >= 0.3
  {
    if contents == [] then 0.3 else Max(WeightSumAsWritten(contents, unit), 0.3)
  }

  /** The loop of `get_total_weight`, with the default applied in kilograms. */
  method ComputeTotalWeight(contents: seq<Item>, unit: string) returns (weight: real)
    ensures weight == TotalWeight(contents, unit)
    ensures weight >= 0.3
  {
    if contents == [] {
      return 0.3;
    }
    var sum := 0.0;
    var i := 0;
    while i < |contents|
      invariant 0 <= i <= |contents|
      invariant sum == WeightSum(contents[..i], unit)
    {
      var item := contents[i];
      assert contents[..i + 1][..i] == contents[..i];
      if item.product.None? {
        i := i + 1;
        continue;
      }
      var itemWeight := item.product.value.weight;
      if itemWeight <= 0.0 {
        sum := sum + 0.3 * item.quantity as real;
      } else {
        sum := sum + ConvertToKg(itemWeight, unit) * item.quantity as real;
      }
      i := i + 1;
    }
    assert contents[..i] == contents;
    weight := Max(sum, 0.3);
  }

  /** With the default applied in kilograms, an unweighted product weighs 300 g
      whatever unit the store uses. */
  lemma DefaultWeightIsThreeHundredGrams(unit: string)
    ensures ItemWeight(Product(0.0), unit) == 0.3
    ensures forall w: real :: w <= 0.0 ==> ItemWeight(Product(w), unit) == 0.3
  {
  }

  /** As written, a store weighing in grams gets 0.3 g, not 300 g, per unweighted
      product: ten of them weigh 0.3 kg in total instead of 3 kg. */
  lemma UnitDefaultCounterexample()
    ensures ItemWeightAsWritten(Product(0.0), "g") == 0.0003
    ensures TotalWeightAsWritten([Item(Some(Product(0.0)), 10)], "g") == 0.3
    ensures TotalWeight([Item(Some(Product(0.0)), 10)], "g") == 3.0
  {
    var items := [Item(Some(Product(0.0)), 10)];
    assert items[..0] == [];
    assert WeightSumAsWritten(items, "g") == 0.003;
    assert WeightSum(items, "g") == 3.0;
  }

  /** The correction only matters for unweighted products in a non-kilogram unit:
      with every product weighed, or with weights in kg, both computations agree. */
  lemma {:induction false} CorrectionAgreesOtherwise(contents: seq<Item>, unit: string)
    requires (forall i :: 0 <= i < |contents| && contents[i].product.Some? ==> contents[i].product.value.weight > 0.0)
             || (unit != "g" && unit != "lbs" && unit != "oz")
    ensures TotalWeightAsWritten(contents, unit) == TotalWeight(contents, unit)
  {
    WeightSumsAgree(contents, unit);
  }

  lemma {:induction false} WeightSumsAgree(contents: seq<Item>, unit: string)
    requires (forall i :: 0 <= i < |contents| && contents[i].product.Some? ==> contents[i].product.value.weight > 0.0)
             || (unit != "g" && unit != "lbs" && unit != "oz")
    ensures WeightSumAsWritten(contents, unit) == WeightSum(contents, unit)
    decreases |contents|
  {
    if contents != [] {
      var init := contents[..|contents| - 1];
      assert forall i :: 0 <= i < |init| ==> init[i] == contents[i];
      WeightSumsAgree(init, unit);
    }
  }

  /** `get_package_dimensions` after the volume estimate: an empty cart ships in the
      minimum box; otherwise each side is rounded to 0.1 cm and raised to its minimum. */
  function PackageDimensions(contents: seq<Item>, estimate: Box): (r: Box)
    ensures r.height >= MinHeight && r.width >= MinWidth && r.length >= MinLength
    ensures contents == [] ==> r == Box(MinHeight, MinWidth, MinLength)
    ensures contents != [] && estimate.height >= MinHeight + 0.05 ==> r.height == Round1(estimate.height)
    ensures contents != [] ==> r.height >= Round1(estimate.height)
                               && (r.height == Round1(estimate.height) || r.height == MinHeight)
    ensures contents != [] ==> r.width >= Round1(estimate.width)
                               && (r.width == Round1(estimate.width) || r.width == MinWidth)
    ensures contents != [] ==> r.length >= Round1(estimate.length)
                               && (r.length == Round1(estimate.length) || r.length == MinLength)
  {
    if contents == [] then Box(MinHeight, MinWidth, MinLength)
    else
      Round1Close(estimate.height);
      Box(Max(Round1(estimate.height), MinHeight),
          Max(Round1(estimate.width), MinWidth),
          Max(Round1(estimate.length), MinLength))
  }

  // ------------------------------------------------------------ cache key

  /** The fields `build_cache_key` hashes; the hash itself is not modelled. */
  datatype CacheKey = CacheKey(
    origin: string, destination: string, weight: real,
    height: int, width: int, length: int, services: string)

  /** `build_cache_key`: weight to 0.1 kg, sides truncated to whole cm, the
      services joined with '-'. */
  function BuildCacheKey(origin: string, services: seq<string>, destination: string, weight: real, box: Box): (k: CacheKey)
    ensures k.origin == origin && k.destination == destination
    ensures weight - 0.05 <= k.weight <= weight + 0.05
    ensures box.height >= 0.0 ==> k.height as real <= box.height < k.height as real + 1.0
    ensures box.width >= 0.0 ==> k.width as real <= box.width < k.width as real + 1.0
    ensures box.length >= 0.0 ==> k.length as real <= box.length < k.length as real + 1.0
    ensures k.services == Join(services, "-")
  {
    Round1Close(weight);
    CacheKey(origin, destination, Round1(weight),
             TruncToInt(box.height), TruncToInt(box.width), TruncToInt(box.length),
             Join(services, "-"))
  }

  // ------------------------------------------------------------ parsing the answer

  /** One service of the web-service answer. Absent fields are None. */
  datatype RawService = RawService(code: string, error: Option<string>, price: Option<string>, deadline: Option<int>)

  /** A Brazilian price "1.234,56": thousands points removed, decimal comma made a point. */
  function ParsePrice(s: string): real {
    ToFloat(ReplaceChar(RemoveChar(s, '.'), ',', '.'))
  }

  function ServiceName(code: string): string {
    if code in AvailableServices then AvailableServices[code] else "Correios"
  }

  /** "%s (%d dias úteis)" when a deadline is given, else the bare name. */
  function ServiceTitle(name: string, deadline: int): (t: string)
    ensures StartsWith(t, name)
    ensures deadline <= 0 ==> t == name
  {
    var t := if deadline > 0 then name + " (" + IntToString(deadline) + " dias úteis)" else name;
    assert t[..|name|] == name;
    t
  }

  /** One service of `parse_response`: kept only when its error code is "0" (absent
      counts as "0") and its price is positive. */
  function ParseService(s: RawService): (r: Option<Rate>)
    ensures r.Some? <==> s.error.GetOr("0") == "0" && ParsePrice(s.price.GetOr("0")) > 0.0
    ensures r.Some? ==>
      r.value.cost == ParsePrice(s.price.GetOr("0")) && r.value.cost > 0.0
      && r.value.code == s.code && r.value.id == "correios_" + s.code
      && r.value.deadline == s.deadline.GetOr(0)
      && StartsWith(r.value.title, ServiceName(s.code))
  {
    if s.error.GetOr("0") != "0" then None
    else
      var price := ParsePrice(s.price.GetOr("0"));
      if price <= 0.0 then None
      else
        var deadline := s.deadline.GetOr(0);
        Some(Rate("correios_" + s.code, s.code, ServiceTitle(ServiceName(s.code), deadline), price, deadline))
  }

  /** The rates `parse_response` keeps, in answer order. */
  function ParsedRates(services: seq<RawService>): seq<Rate>
    decreases |services|
  {
    if services == [] then []
    else
      var last := ParseService(services[|services| - 1]);
      ParsedRates(services[..|services| - 1]) + (if last.Some? then [last.value] else [])
  }

  /** `parse_response` */
  method ParseResponse(services: seq<RawService>) returns (rates: seq<Rate>)
    ensures rates == ParsedRates(services)
  {
    rates := [];
    var i := 0;
    while i < |services|
      invariant 0 <= i <= |services|
      invariant rates == ParsedRates(services[..i])
    {
      var service := services[i];
      assert services[..i + 1][..i] == services[..i];
      var errorCode := service.error.GetOr("0");
      if errorCode != "0" {
        i := i + 1;
        continue;
      }
      var price := ParsePrice(service.price.GetOr("0"));
      if price <= 0.0 {
        i := i + 1;
        continue;
      }
      var deadline := service.deadline.GetOr(0);
      var title := ServiceTitle(ServiceName(service.code), deadline);
      rates := rates + [Rate("correios_" + service.code, service.code, title, price, deadline)];
      i := i + 1;
    }
    assert services[..i] == services;
  }

  /** Every parsed rate has a positive cost and comes from an error-free service of the answer. */
  lemma {:induction false} ParsedRatesSound(services: seq<RawService>)
    ensures forall r :: r in ParsedRates(services) ==> r.cost > 0.0
    ensures forall r :: r in ParsedRates(services) ==>
      exists j :: 0 <= j < |services| && ParseService(services[j]) == Some(r)
    decreases |services|
  {
    if services != [] {
      var init := services[..|services| - 1];
      ParsedRatesSound(init);
      forall r | r in ParsedRates(services)
        ensures exists j :: 0 <= j < |services| && ParseService(services[j]) == Some(r)
      {
        if r in ParsedRates(init) {
          var j :| 0 <= j < |init| && ParseService(init[j]) == Some(r);
          assert services[j] == init[j];
        } else {
          assert ParseService(services[|services| - 1]) == Some(r);
        }
      }
    }
  }

  /** A service that parses is kept. */
  lemma {:induction false} ParsedRatesComplete(services: seq<RawService>, j: nat, r: Rate)
    requires j < |services| && ParseService(services[j]) == Some(r)
    ensures r in ParsedRates(services)
    decreases |services|
  {
    var init := services[..|services| - 1];
    if j < |init| {
      assert services[j] == init[j];
      ParsedRatesComplete(init, j, r);
    } else {
      assert ParseService(services[|services| - 1]) == Some(r);
    }
  }

  /** Nothing usable in the answer exactly when every service is dropped. */
  lemma ParsedRatesEmpty(services: seq<RawService>)
    ensures ParsedRates(services) == [] <==> forall j :: 0 <= j < |services| ==> ParseService(services[j]).None?
  {
    ParsedRatesSound(services);
    forall j | 0 <= j < |services| && ParseService(services[j]).Some?
      ensures ParsedRates(services) != []
    {
      ParsedRatesComplete(services, j, ParseService(services[j]).value);
    }
    if ParsedRates(services) != [] {
      var r := ParsedRates(services)[0];
      assert r in ParsedRates(services);
    }
  }

  /** "1.234,56" is read as 1234.56: the thousands point goes, the decimal comma counts. */
  lemma ParsePriceThousands()
    ensures ParsePrice("1.234,56") == 1234.56
  {
    BrazilianThousandsExample();
    ToFloatDecimal("1234", "56");
    DecimalValueExamples();
  }

  /** "18,50" is read as 18.5. */
  lemma ParsePriceComma()
    ensures ParsePrice("18,50") == 18.5
  {
    BrazilianCommaExample();
    ToFloatDecimal("18", "50");
    DecimalValueExamples();
  }

  /** A service with an error code, or a zero price, is dropped; an unlisted code is named "Correios". */
  lemma ParseServiceExamples()
    ensures ParseService(RawService("04510", Some("010"), Some("25,00"), Some(5))).None?
    ensures ParseService(RawService("04510", None, Some("0,00"), Some(5))).None?
    ensures ParseService(RawService("99999", None, Some("0,00"), None)).None?
    ensures ServiceName("99999") == "Correios"
  {
    ZeroPrice();
  }

  lemma ZeroPrice()
    ensures ParsePrice("0,00") == 0.0
  {
    BrazilianCommaExample();
    ToFloatDecimal("0", "00");
    DecimalValueExamples();
  }

  // ------------------------------------------------------------ profit margin

  /** `apply_profit_margin`: a margin of m > 0 percent multiplies every cost by
      1 + m/100 and rounds to cents; otherwise the rates are returned as they are. */
  function WithMargin(rates: seq<Rate>, margin: real): seq<Rate> {
    if margin <= 0.0 then rates
    else seq(|rates|, i requires 0 <= i < |rates| => rates[i].(cost := MarginCost(rates[i].cost, margin)))
  }

  /** One marked-up cost, rounded to cents. */
  function MarginCost(cost: real, margin: real): real {
    Round2(cost * (1.0 + margin / 100.0))
  }

  /** The by-reference foreach of `apply_profit_margin`. */
  method ApplyProfitMargin(rates: seq<Rate>, margin: real) returns (r: seq<Rate>)
    ensures r == WithMargin(rates, margin)
  {
    if margin <= 0.0 {
      return rates;
    }
    r := rates;
    var i := 0;
    while i < |r|
      invariant 0 <= i <= |r| == |rates|
      invariant forall j :: 0 <= j < i ==> r[j] == rates[j].(cost := MarginCost(rates[j].cost, margin))
      invariant forall j :: i <= j < |r| ==> r[j] == rates[j]
    {
      r := r[i := r[i].(cost := MarginCost(r[i].cost, margin))];
      i := i + 1;
    }
    assert forall j :: 0 <= j < |r| ==> r[j] == WithMargin(rates, margin)[j];
  }

  /** A non-positive margin leaves the rates untouched. */
  lemma MarginIdentity(rates: seq<Rate>, margin: real)
    requires margin <= 0.0
    ensures WithMargin(rates, margin) == rates
  {
  }

  /** The margin changes costs only: same number of rates, same ids, codes, titles and
      deadlines, in the same order; each new cost is within half a cent of the marked-up
      cost and, for a non-negative cost, no lower than that cost rounded to cents. */
  lemma MarginChangesCostOnly(rates: seq<Rate>, margin: real)
    ensures var r := WithMargin(rates, margin);
      |r| == |rates|
      && (forall i :: 0 <= i < |r| ==> r[i].(cost := rates[i].cost) == rates[i])
      && (margin > 0.0 ==> forall i :: 0 <= i < |r| ==>
            rates[i].cost * (1.0 + margin / 100.0) - 0.005 <= r[i].cost <= rates[i].cost * (1.0 + margin / 100.0) + 0.005)
      && (margin > 0.0 ==> forall i :: 0 <= i < |r| && rates[i].cost >= 0.0 ==> r[i].cost >= Round2(rates[i].cost))
  {
    if margin > 0.0 {
      forall i | 0 <= i < |rates|
        ensures rates[i].cost * (1.0 + margin / 100.0) - 0.005 <= WithMargin(rates, margin)[i].cost
                <= rates[i].cost * (1.0 + margin / 100.0) + 0.005
        ensures rates[i].cost >= 0.0 ==> WithMargin(rates, margin)[i].cost >= Round2(rates[i].cost)
      {
        assert WithMargin(rates, margin)[i].cost == MarginCost(rates[i].cost, margin);
        MarginCostBounds(rates[i].cost, margin);
      }
    }
  }

  /** One marked-up cost is within half a cent of the exact markup, and a positive
      margin never lowers a non-negative cost below its rounded value. */
  lemma MarginCostBounds(cost: real, margin: real)
    requires margin > 0.0
    ensures cost * (1.0 + margin / 100.0) - 0.005 <= MarginCost(cost, margin) <= cost * (1.0 + margin / 100.0) + 0.005
    ensures cost >= 0.0 ==> MarginCost(cost, margin) >= Round2(cost)
  {
    var scaled := cost * (1.0 + margin / 100.0);
    assert MarginCost(cost, margin) == Round2(scaled);
    Round2Close(scaled);
    if cost >= 0.0 {
      ScaleUp(cost, 1.0 + margin / 100.0);
      Round2Monotone(cost, scaled);
    }
  }

  // ------------------------------------------------------------ contingency table

  /** A contingency row; a key absent from the row is None. */
  datatype RegionRates = RegionRates(pac: Option<real>, sedex: Option<real>, deadlinePac: Option<int>, deadlineSedex: Option<int>)

  /** `empty($custom_rates[$state])`: an absent or empty row. */
  predicate EmptyRegion(r: RegionRates) {
    r.pac.None? && r.sedex.None? && r.deadlinePac.None? && r.deadlineSedex.None?
  }

  function Row(pac: real, sedex: real, deadlinePac: int, deadlineSedex: int): RegionRates {
    RegionRates(Some(pac), Some(sedex), Some(deadlinePac), Some(deadlineSedex))
  }

  /** The built-in table, by state. */
  const BuiltInRegions: map<string, RegionRates> := map[
    "MG" := Row(18.00, 28.00, 5, 2),
    "SP" := Row(22.00, 35.00, 6, 2),
    "RJ" := Row(24.00, 38.00, 7, 3),
    "ES" := Row(22.00, 35.00, 6, 3),
    "PR" := Row(28.00, 42.00, 8, 3),
    "SC" := Row(30.00, 45.00, 9, 4),
    "RS" := Row(32.00, 48.00, 10, 4),
    "GO" := Row(20.00, 32.00, 5, 2),
    "DF" := Row(22.00, 35.00, 5, 2),
    "MT" := Row(32.00, 50.00, 10, 5),
    "MS" := Row(28.00, 45.00, 8, 4),
    "BA" := Row(35.00, 55.00, 12, 5),
    "SE" := Row(38.00, 58.00, 12, 5),
    "AL" := Row(40.00, 60.00, 13, 6),
    "PE" := Row(42.00, 62.00, 14, 6),
    "PB" := Row(44.00, 65.00, 14, 6),
    "RN" := Row(45.00, 68.00, 15, 7),
    "CE" := Row(48.00, 70.00, 15, 7),
    "PI" := Row(50.00, 72.00, 16, 7),
    "MA" := Row(52.00, 75.00, 18, 8),
    "TO" := Row(45.00, 68.00, 15, 7),
    "PA" := Row(55.00, 80.00, 18, 8),
    "AP" := Row(60.00, 85.00, 20, 10),
    "AM" := Row(65.00, 90.00, 22, 10),
    "RR" := Row(68.00, 95.00, 25, 12),
    "RO" := Row(55.00, 80.00, 18, 8),
    "AC" := Row(70.00, 100.00, 25, 12)
  ]

  /** The row for a state outside the table. */
  const UnknownRegion: RegionRates := Row(60.00, 85.00, 20, 10)

  /** The state is trimmed and upper-cased, then looked up in the custom rows, the
      built-in table, and finally the unknown-state row. */
  function RegionFor(state: string, custom: map<string, RegionRates>): (r: RegionRates)
    ensures var key := Upper(Trim(state));
      if key in custom && !EmptyRegion(custom[key]) then r == custom[key]
      else if key in BuiltInRegions then r == BuiltInRegions[key]
      else r == UnknownRegion
  {
    var key := Upper(Trim(state));
    if key in custom && !EmptyRegion(custom[key]) then custom[key]
    else if key in BuiltInRegions then BuiltInRegions[key]
    else UnknownRegion
  }

  /** The surcharge for heavy parcels: 10% per kilogram above 1 kg, at most 3x. */
  function WeightMultiplier(weight: real): (m: real)
    ensures 1.0 <= m <= 3.0
    ensures weight <= 1.0 ==> m == 1.0
    ensures weight > 1.0 ==> m == Min(1.0 + (weight - 1.0) * 0.1, 3.0)
  {
    if weight > 1.0 then Min(1.0 + (weight - 1.0) * 0.1, 3.0) else 1.0
  }

  /** The surcharge grows with weight and reaches its cap at 21 kg. */
  lemma WeightMultiplierMonotone(w1: real, w2: real)
    requires w1 <= w2
    ensures WeightMultiplier(w1) <= WeightMultiplier(w2)
    ensures w1 >= 21.0 ==> WeightMultiplier(w1) == 3.0
  {
  }

  /** A table price times the weight surcharge, rounded to cents. */
  function ContingencyCost(price: real, multiplier: real): real {
    Round2(price * multiplier)
  }

  /** The PAC contingency rate, when PAC is enabled and the row has a PAC price. */
  function PacRate(region: RegionRates, multiplier: real, services: seq<string>): seq<Rate> {
    if PacCode in services && region.pac.Some? then
      var deadline := region.deadlinePac.GetOr(0);
      [Rate("correios_04510", PacCode, "PAC (" + IntToString(deadline) + " dias úteis)*",
            ContingencyCost(region.pac.value, multiplier), deadline)]
    else []
  }

  function SedexRate(region: RegionRates, multiplier: real, services: seq<string>): seq<Rate> {
    if SedexCode in services && region.sedex.Some? then
      var deadline := region.deadlineSedex.GetOr(0);
      [Rate("correios_04014", SedexCode, "SEDEX (" + IntToString(deadline) + " dias úteis)*",
            ContingencyCost(region.sedex.value, multiplier), deadline)]
    else []
  }

  /** `get_contingency_rates`: at most a PAC rate then a SEDEX rate, each only when
      its service is enabled, priced from the region row times the weight surcharge. */
  function ContingencyRates(state: string, weight: real, services: seq<string>, custom: map<string, RegionRates>): (r: seq<Rate>)
    ensures |r| <= 2
    ensures forall x :: x in r ==> x.code in services && (x.code == PacCode || x.code == SedexCode)
  {
    var region := RegionFor(state, custom);
    var multiplier := WeightMultiplier(weight);
    PacRate(region, multiplier, services) + SedexRate(region, multiplier, services)
  }

  /** Each contingency cost is the row price times the surcharge, to the cent. */
  lemma ContingencyCosts(state: string, weight: real, services: seq<string>, custom: map<string, RegionRates>)
    ensures var region := RegionFor(state, custom);
      forall x :: x in ContingencyRates(state, weight, services, custom) ==>
        (x.code == PacCode ==> region.pac.Some? && x.cost == ContingencyCost(region.pac.value, WeightMultiplier(weight)))
        && (x.code == SedexCode ==> region.sedex.Some? && x.cost == ContingencyCost(region.sedex.value, WeightMultiplier(weight)))
  {
    RatesCosts(RegionFor(state, custom), WeightMultiplier(weight), services);
  }

  lemma RatesCosts(region: RegionRates, m: real, services: seq<string>)
    ensures forall x :: x in PacRate(region, m, services) + SedexRate(region, m, services) ==>
      (x.code == PacCode ==> region.pac.Some? && x.cost == ContingencyCost(region.pac.value, m))
      && (x.code == SedexCode ==> region.sedex.Some? && x.cost == ContingencyCost(region.sedex.value, m))
  {
    var pac, sedex := PacRate(region, m, services), SedexRate(region, m, services);
    assert PacCode != SedexCode by {
      assert PacCode[2] != SedexCode[2];
    }
    PacRateCost(region, m, services);
    SedexRateCost(region, m, services);
    assert forall x :: x in pac + sedex ==> x in pac || x in sedex;
  }

  lemma PacRateCost(region: RegionRates, m: real, services: seq<string>)
    ensures forall x :: x in PacRate(region, m, services) ==>
      x.code == PacCode && region.pac.Some? && x.cost == ContingencyCost(region.pac.value, m)
  {
    var r := PacRate(region, m, services);
    if PacCode in services && region.pac.Some? {
      var x := r[0];
      assert r == [x];
      assert x.code == PacCode && x.cost == ContingencyCost(region.pac.value, m);
    } else {
      assert r == [];
    }
  }

  lemma SedexRateCost(region: RegionRates, m: real, services: seq<string>)
    ensures forall x :: x in SedexRate(region, m, services) ==>
      x.code == SedexCode && region.sedex.Some? && x.cost == ContingencyCost(region.sedex.value, m)
  {
    var r := SedexRate(region, m, services);
    if SedexCode in services && region.sedex.Some? {
      var x := r[0];
      assert r == [x];
      assert x.code == SedexCode && x.cost == ContingencyCost(region.sedex.value, m);
    } else {
      assert r == [];
    }
  }

  /** For a state in the built-in table (and no custom row), the contingency quote is
      empty exactly when neither PAC nor SEDEX is enabled. An unknown state falls back
      to the 60/85 row, so it is quoted as well. */
  lemma ContingencyAvailable(state: string, weight: real, services: seq<string>)
    ensures ContingencyRates(state, weight, services, map[]) == [] <==> PacCode !in services && SedexCode !in services
  {
    var region := RegionFor(state, map[]);
    var key := Upper(Trim(state));
    BuiltInRowsPriced();
    var m := WeightMultiplier(weight);
    if PacCode in services {
      assert PacRate(region, m, services) != [];
    } else if SedexCode in services {
      assert SedexRate(region, m, services) != [];
    }
  }

  lemma BuiltInRowsPriced()
    ensures forall k :: k in BuiltInRegions ==> BuiltInRegions[k].pac.Some? && BuiltInRegions[k].sedex.Some?
  {
  }

  lemma BuiltInRowsExample()
    ensures "MG" in BuiltInRegions && BuiltInRegions["MG"] == Row(18.00, 28.00, 5, 2)
    ensures "SP" in BuiltInRegions && BuiltInRegions["SP"] == Row(22.00, 35.00, 6, 2)
    ensures "XX" !in BuiltInRegions
  {
  }

  /** The state is trimmed and upper-cased before the lookup. */
  lemma RegionLookupNormalises()
    ensures RegionFor(" mg ", map[]) == Row(18.00, 28.00, 5, 2)
  {
    UpperTrimExample();
    BuiltInRowsExample();
  }

  /** Blanks around the state never change the row it finds. */
  lemma RegionForIgnoresPadding(state: string, pre: string, post: string, custom: map<string, RegionRates>)
    requires AllTrimChars(pre) && AllTrimChars(post)
    ensures RegionFor(pre + state + post, custom) == RegionFor(state, custom)
  {
    TrimIgnoresPadding(pre, state, post);
  }

  /** States that differ only in ASCII letter case find the same row. */
  lemma RegionForIgnoresCase(state: string, other: string, custom: map<string, RegionRates>)
    requires Upper(other) == Upper(state)
    ensures RegionFor(other, custom) == RegionFor(state, custom)
  {
    UpperTrim(other);
    UpperTrim(state);
  }

  /** A non-empty custom row wins over the built-in one; an empty custom row does not;
      a state outside the table gets the 60/85 row. */
  lemma RegionLookupPrecedence()
    ensures RegionFor("SP", map["SP" := Row(1.0, 2.0, 3, 4)]) == Row(1.0, 2.0, 3, 4)
    ensures RegionFor("SP", map["SP" := RegionRates(None, None, None, None)]) == Row(22.00, 35.00, 6, 2)
    ensures RegionFor("XX", map[]) == UnknownRegion
  {
    UpperTrimUnchanged("SP");
    UpperTrimUnchanged("XX");
    BuiltInRowsExample();
  }

  /** Which contingency rates appear: PAC exactly when PAC is enabled and its row has a
      PAC price, SEDEX likewise, PAC always first. */
  lemma ContingencyShape(state: string, weight: real, services: seq<string>, custom: map<string, RegionRates>)
    ensures var r := ContingencyRates(state, weight, services, custom);
      var region := RegionFor(state, custom);
      && ((exists x :: x in r && x.code == PacCode) <==> PacCode in services && region.pac.Some?)
      && ((exists x :: x in r && x.code == SedexCode) <==> SedexCode in services && region.sedex.Some?)
      && (r != [] && r[0].code == SedexCode ==> |r| == 1)
  {
    RatesShape(RegionFor(state, custom), WeightMultiplier(weight), services);
  }

  lemma RatesShape(region: RegionRates, m: real, services: seq<string>)
    ensures var r := PacRate(region, m, services) + SedexRate(region, m, services);
      && ((exists x :: x in r && x.code == PacCode) <==> PacCode in services && region.pac.Some?)
      && ((exists x :: x in r && x.code == SedexCode) <==> SedexCode in services && region.sedex.Some?)
      && (r != [] && r[0].code == SedexCode ==> |r| == 1)
  {
    var r := PacRate(region, m, services) + SedexRate(region, m, services);
    assert PacCode != SedexCode by {
      assert PacCode[2] != SedexCode[2];
    }
    if PacCode in services && region.pac.Some? {
      assert r[0] in r && r[0].code == PacCode;
    }
    if SedexCode in services && region.sedex.Some? {
      assert r[|r| - 1] in r && r[|r| - 1].code == SedexCode;
    }
  }

  // ------------------------------------------------------------ a whole quote

  datatype ApiResponse = ApiError | ApiServices(services: seq<RawService>)

  /** A transient: the rates before the margin and the time it stops being served. */
  datatype CacheEntry = CacheEntry(rates: seq<Rate>, expiresAt: int)

  /** What a quote returns (None for `false`), the transient store afterwards, and
      whether the web service was called. */
  datatype Outcome = Outcome(result: Option<seq<Rate>>, cache: map<CacheKey, CacheEntry>, apiCalled: bool)

  predicate CacheHit(cache: map<CacheKey, CacheEntry>, key: CacheKey, now: int) {
    key in cache && now <= cache[key].expiresAt
  }

  /** The answer when the web service failed or gave nothing usable: the contingency
      rates with the margin, when contingency is on and yields something; else false. */
  function Fallback(opts: Options, pkg: Package, weight: real, services: seq<string>, margin: real): Option<seq<Rate>> {
    if opts.contingencyEnabled then
      var rates := ContingencyRates(pkg.state.GetOr(""), weight, services, opts.customRates);
      if rates != [] then Some(WithMargin(rates, margin)) else None
    else None
  }

  /** The destination CEP is usable: eight digits once non-digits are stripped. */
  predicate CepAccepted(pkg: Package) {
    var cep := SanitizeCep(pkg.postcode.GetOr(""));
    !EmptyString(cep) && |cep| == 8
  }

  function QuoteKey(origin: string, services: seq<string>, opts: Options, pkg: Package): CacheKey {
    BuildCacheKey(origin, services, SanitizeCep(pkg.postcode.GetOr("")),
                  TotalWeight(pkg.contents, opts.weightUnit), PackageDimensions(pkg.contents, pkg.volumetricBox))
  }

  /** `calculate`, as a function of the service's state and its inputs. */
  function Quote(origin: string, services: seq<string>, margin: real, cache: map<CacheKey, CacheEntry>,
                 opts: Options, pkg: Package, now: int, api: ApiResponse): Outcome
  {
    if !opts.enabled || !CepAccepted(pkg) then Outcome(None, cache, false)
    else
      var weight := TotalWeight(pkg.contents, opts.weightUnit);
      if weight > MaxWeight then Outcome(None, cache, false)
      else
        var key := QuoteKey(origin, services, opts, pkg);
        if CacheHit(cache, key, now) then Outcome(Some(WithMargin(cache[key].rates, margin)), cache, false)
        else LiveQuote(services, margin, cache, key, opts, pkg, weight, now, api)
  }

  /** A cache miss: the web service is asked; usable rates are stored (before the
      margin) and returned with it; otherwise the contingency fallback. */
  function LiveQuote(services: seq<string>, margin: real, cache: map<CacheKey, CacheEntry>, key: CacheKey,
                     opts: Options, pkg: Package, weight: real, now: int, api: ApiResponse): Outcome
  {
    match api
    case ApiError => Outcome(Fallback(opts, pkg, weight, services, margin), cache, true)
    case ApiServices(raw) =>
      var rates := ParsedRates(raw);
      if rates == [] then Outcome(Fallback(opts, pkg, weight, services, margin), cache, true)
      else Outcome(Some(WithMargin(rates, margin)), cache[key := CacheEntry(rates, now + CacheDuration)], true)
  }

  /** A disabled method, a bad CEP or an overweight parcel gives false without touching
      the cache or calling the web service. */
  lemma QuoteRejects(origin: string, services: seq<string>, margin: real, cache: map<CacheKey, CacheEntry>,
                     opts: Options, pkg: Package, now: int, api: ApiResponse)
    requires !opts.enabled || !CepAccepted(pkg) || TotalWeight(pkg.contents, opts.weightUnit) > MaxWeight
    ensures var o := Quote(origin, services, margin, cache, opts, pkg, now, api);
      o.result.None? && o.cache == cache && !o.apiCalled
  {
  }

  /** The web service is called only on a cache miss, and the cache changes only after
      a live answer with usable rates; what is stored is the answer before the margin,
      and what is returned is the stored rates with the margin applied once. */
  lemma QuoteStoresBeforeMargin(origin: string, services: seq<string>, margin: real, cache: map<CacheKey, CacheEntry>,
                                opts: Options, pkg: Package, now: int, api: ApiResponse)
    ensures var o := Quote(origin, services, margin, cache, opts, pkg, now, api);
      var key := QuoteKey(origin, services, opts, pkg);
      (o.apiCalled ==> !CacheHit(cache, key, now))
      && (o.cache != cache ==>
            o.apiCalled && api.ApiServices?
            && o.cache == cache[key := CacheEntry(ParsedRates(api.services), now + CacheDuration)]
            && o.result == Some(WithMargin(o.cache[key].rates, margin)))
  {
  }

  /** Every non-false quote is the margin applied once to one of: the cached rates, the
      parsed live rates, or the (non-empty) contingency rates, the last only when
      contingency is enabled and the live path failed. */
  lemma QuoteSources(origin: string, services: seq<string>, margin: real, cache: map<CacheKey, CacheEntry>,
                     opts: Options, pkg: Package, now: int, api: ApiResponse)
    requires Quote(origin, services, margin, cache, opts, pkg, now, api).result.Some?
    ensures var o := Quote(origin, services, margin, cache, opts, pkg, now, api);
      var key := QuoteKey(origin, services, opts, pkg);
      var weight := TotalWeight(pkg.contents, opts.weightUnit);
      var contingency := ContingencyRates(pkg.state.GetOr(""), weight, services, opts.customRates);
      (CacheHit(cache, key, now) && o.result.value == WithMargin(cache[key].rates, margin))
      || (api.ApiServices? && ParsedRates(api.services) != [] && o.result.value == WithMargin(ParsedRates(api.services), margin))
      || (opts.contingencyEnabled && contingency != [] && o.result.value == WithMargin(contingency, margin)
          && (api.ApiError? || ParsedRates(api.services) == []))
  {
  }

  /** When the live path fails and contingency is off or yields nothing, the quote is false. */
  lemma QuoteFailsWithoutContingency(origin: string, services: seq<string>, margin: real, cache: map<CacheKey, CacheEntry>,
                                     opts: Options, pkg: Package, now: int, api: ApiResponse)
    requires opts.enabled && CepAccepted(pkg) && TotalWeight(pkg.contents, opts.weightUnit) <= MaxWeight
    requires !CacheHit(cache, QuoteKey(origin, services, opts, pkg), now)
    requires api.ApiError? || ParsedRates(api.services) == []
    requires !opts.contingencyEnabled
             || ContingencyRates(pkg.state.GetOr(""), TotalWeight(pkg.contents, opts.weightUnit), services, opts.customRates) == []
    ensures var o := Quote(origin, services, margin, cache, opts, pkg, now, api);
      o.result.None? && o.apiCalled && o.cache == cache
  {
  }

  /** A live quote is served again from the cache, without a call, to the same package
      until the entry expires: the second answer equals the first. */
  lemma QuoteThenCached(origin: string, services: seq<string>, margin: real, cache: map<CacheKey, CacheEntry>,
                        opts: Options, pkg: Package, now: int, api: ApiResponse, later: int, api2: ApiResponse)
    requires Quote(origin, services, margin, cache, opts, pkg, now, api).cache != cache
    requires now <= later <= now + CacheDuration
    ensures var first := Quote(origin, services, margin, cache, opts, pkg, now, api);
      var second := Quote(origin, services, margin, first.cache, opts, pkg, later, api2);
      second.result == first.result && !second.apiCalled && second.cache == first.cache
  {
    QuoteStoresBeforeMargin(origin, services, margin, cache, opts, pkg, now, api);
  }

  /** The carrier service object; `cache` is the transient store and `apiCalls`
      counts calls to the web service. */
  class CorreiosService {
    var originCep: string
    var services: seq<string>
    var profitMargin: real
    var cache: map<CacheKey, CacheEntry>
    var apiCalls: nat

    /** Reads the origin CEP (digits only, default 38400-000), the enabled services
        and the profit margin (default 0). */
    constructor(storedOrigin: Option<string>, storedServices: Option<StoredServices>, storedMargin: Option<real>,
                transients: map<CacheKey, CacheEntry>)
      ensures originCep == if storedOrigin.Some? then SanitizeCep(storedOrigin.value) else DefaultOriginDigits
      ensures services == ServicesSetting(storedServices)
      ensures profitMargin == storedMargin.GetOr(0.0)
      ensures cache == transients && apiCalls == 0
    {
      originCep := if storedOrigin.Some? then SanitizeCep(storedOrigin.value) else DefaultOriginDigits;
      services := ServicesSetting(storedServices);
      profitMargin := storedMargin.GetOr(0.0);
      cache := transients;
      apiCalls := 0;
    }

    /** `calculate`. `api` is what the web service would answer; it is consulted only on a miss. */
    method Calculate(pkg: Package, opts: Options, now: int, api: ApiResponse) returns (result: Option<seq<Rate>>)
      modifies this
      ensures var o := Quote(originCep, services, profitMargin, old(cache), opts, pkg, now, api);
        result == o.result && cache == o.cache && apiCalls == old(apiCalls) + (if o.apiCalled then 1 else 0)
      ensures originCep == old(originCep) && services == old(services) && profitMargin == old(profitMargin)
    {
      if !opts.enabled {
        return None;
      }
      var destination := SanitizeCep(pkg.postcode.GetOr(""));
      if EmptyString(destination) || |destination| != 8 {
        return None;
      }
      var weight := ComputeTotalWeight(pkg.contents, opts.weightUnit);
      var dimensions := PackageDimensions(pkg.contents, pkg.volumetricBox);
      if weight > MaxWeight {
        return None;
      }
      var key := BuildCacheKey(originCep, services, destination, weight, dimensions);
      if key in cache && now <= cache[key].expiresAt {
        var cached := ApplyProfitMargin(cache[key].rates, profitMargin);
        return Some(cached);
      }
      result := CallService(key, pkg, opts, weight, now, api);
    }

    /** The part of `calculate` after a cache miss: one call to the web service, then
        the stored rates with the margin, or the contingency fallback. */
    method CallService(key: CacheKey, pkg: Package, opts: Options, weight: real, now: int, api: ApiResponse)
      returns (result: Option<seq<Rate>>)
      modifies this
      ensures var o := LiveQuote(services, profitMargin, old(cache), key, opts, pkg, weight, now, api);
        result == o.result && cache == o.cache && apiCalls == old(apiCalls) + 1
      ensures originCep == old(originCep) && services == old(services) && profitMargin == old(profitMargin)
    {
      apiCalls := apiCalls + 1;
      var rates: seq<Rate> := [];
      var failed := api.ApiError?;
      if !failed {
        rates := ParseResponse(api.services);
        failed := rates == [];
      }
      if failed {
        if opts.contingencyEnabled {
          var contingency := ContingencyRates(pkg.state.GetOr(""), weight, services, opts.customRates);
          if contingency != [] {
            var priced := ApplyProfitMargin(contingency, profitMargin);
            return Some(priced);
          }
        }
        return None;
      }
      cache := cache[key := CacheEntry(rates, now + CacheDuration)];
      var priced := ApplyProfitMargin(rates, profitMargin);
      result := Some(priced);
    }
  }
}
