/** The checkout geocoding handler (`Woo_Envios_Checkout::geocode_address`, with the
    `Geocoder::geocode` wrapper it calls): CEP check, address assembly, geocoding, and
    the session write that `calculate_shipping` later reads. */
module Checkout {
  import opened Php
  import opened GoogleMaps
  import Shipping

  /** The posted address fields, already sanitised; a missing field is "". */
  datatype AddressFields = AddressFields(
    address1: string, number: string, neighborhood: string, city: string,
    state: string, postcode: string, country: string)

  const EmptyAddressMessage: string := "Por favor, preencha todos os campos do endereço para calcular o frete."

  function InvalidCepMessage(postcode: string): string {
    "CEP " + postcode + " inválido. Digite 8 dígitos no formato 00000-000"
  }

  function NotFoundMessage(address: string): string {
    "Não encontramos o endereço: " + address + ". Verifique se está correto."
  }

  /** A Brazilian address with a (PHP-non-empty) postcode must have exactly eight digits
      in it; anything else is not checked. */
  predicate CepRejected(f: AddressFields) {
    f.country == "BR" && !EmptyString(f.postcode) && |DigitsOnly(f.postcode)| != 8
  }

  /** A CEP written "NNNNN-NNN" (or as bare digits) passes. */
  lemma FormattedCepAccepted(f: AddressFields, digits: string)
    requires |digits| == 8 && AllDigits(digits)
    ensures !CepRejected(f.(postcode := FormatCep(digits)))
    ensures !CepRejected(f.(postcode := digits))
  {
    FormatCepRoundTrip(digits);
    DigitsOnlyKeepsDigits(digits);
  }

  /** The seven fields in address order: street, number, neighbourhood, city, state,
      postcode, country. */
  function Parts(f: AddressFields): seq<string> {
    [f.address1, f.number, f.neighborhood, f.city, f.state, f.postcode, f.country]
  }

  /** `implode(', ', array_filter(...))`: the truthy fields joined by ", ". */
  function FullAddress(f: AddressFields): string {
    Join(KeepTruthy(Parts(f)), ", ")
  }

  /** Joining truthy parts with a non-empty separator never gives a falsy string. */
  lemma JoinTruthy(parts: seq<string>, sep: string)
    requires parts != [] && !EmptyString(parts[0]) && sep != []
    ensures !EmptyString(Join(parts, sep))
  {
    if |parts| > 1 {
      assert |Join(parts, sep)| >= |parts[0]| + |sep| >= 2;
    }
  }

  /** The assembled address is empty exactly when every field is empty or "0". */
  lemma FullAddressEmpty(f: AddressFields)
    ensures EmptyString(FullAddress(f)) <==> forall i :: 0 <= i < 7 ==> EmptyString(Parts(f)[i])
  {
    var kept := KeepTruthy(Parts(f));
    KeepTruthyEmpty(Parts(f));
    if kept != [] {
      JoinTruthy(kept, ", ");
    }
  }

  /** The session signature: md5 of the lower-cased "city|state|postcode|country" (the
      hash is left out; its input is kept). */
  function Signature(f: AddressFields): string {
    Lower(Join([f.city, f.state, f.postcode, f.country], "|"))
  }

  /** Street, number and neighbourhood do not enter the signature. */
  lemma SignatureIgnoresStreet(f: AddressFields, address1: string, number: string, neighborhood: string)
    ensures Signature(f.(address1 := address1, number := number, neighborhood := neighborhood)) == Signature(f)
  {
  }

  /** The signature does not depend on letter case. */
  lemma SignatureIgnoresCase(f: AddressFields)
    ensures Signature(f.(city := Lower(f.city), state := Lower(f.state))) == Signature(f)
  {
    var a := Join([f.city, f.state, f.postcode, f.country], "|");
    var b := Join([Lower(f.city), Lower(f.state), f.postcode, f.country], "|");
    LowerConcat(f.city, "|" + Join([f.state, f.postcode, f.country], "|"));
    LowerConcat(Lower(f.city), "|" + Join([Lower(f.state), f.postcode, f.country], "|"));
    LowerConcat("|", Join([f.state, f.postcode, f.country], "|"));
    LowerConcat("|", Join([Lower(f.state), f.postcode, f.country], "|"));
    LowerConcat(f.state, "|" + Join([f.postcode, f.country], "|"));
    LowerConcat(Lower(f.state), "|" + Join([f.postcode, f.country], "|"));
    LowerIdempotent(f.city);
    LowerIdempotent(f.state);
    assert [f.city, f.state, f.postcode, f.country][1..] == [f.state, f.postcode, f.country];
    assert [Lower(f.city), Lower(f.state), f.postcode, f.country][1..] == [Lower(f.state), f.postcode, f.country];
    assert [f.state, f.postcode, f.country][1..] == [f.postcode, f.country];
    assert [Lower(f.state), f.postcode, f.country][1..] == [f.postcode, f.country];
  }

  lemma LowerConcat(a: string, b: string)
    ensures Lower(a + b) == Lower(a) + Lower(b)
  {
  }

  /** The signature stored here is built from other fields than the one shipping
      builds for the same address, so the two never agree: the comparison that shipping
      has commented out would reject every stored point. */
  lemma SignaturesNeverAgree(f: AddressFields)
    ensures Shipping.DestinationSignature(f.address1, f.city, f.state, f.postcode, f.country) != Signature(f)
  {
    var tail := Join([f.city, f.state, f.postcode, f.country], "|");
    assert [f.address1, f.city, f.state, f.postcode, f.country][1..] == [f.city, f.state, f.postcode, f.country];
    assert Join([f.address1, f.city, f.state, f.postcode, f.country], "|") == f.address1 + "|" + tail;
    assert |Shipping.DestinationSignature(f.address1, f.city, f.state, f.postcode, f.country)| == |f.address1| + 1 + |tail|;
  }

  /** `Geocoder::geocode`: the coordinates of a located address (the fallback point
      included), nothing on any error. */
  function GeocoderCoords(g: Geocoded): (r: Option<Shipping.Coordinates>)
    ensures r.Some? <==> g.Located?
    ensures r.Some? ==> r.value == Shipping.Coordinates(g.place.latitude, g.place.longitude)
  {
    match g
    case Located(place) => Some(Shipping.Coordinates(place.latitude, place.longitude))
    case Failed(_) => None
  }

  /** The JSON reply sent back to the checkout page. */
  datatype Reply = JsonError(message: string) | JsonSuccess(coords: Shipping.Coordinates)

  /** The reply the handler sends when it gets as far as geocoding. */
  function GeocodeReply(f: AddressFields, g: Geocoded): Reply {
    match GeocoderCoords(g)
    case None => JsonError(NotFoundMessage(FullAddress(f)))
    case Some(c) => JsonSuccess(c)
  }

  /** What the handler stores: the point and the signature of the address it came from. */
  function SessionEntry(f: AddressFields, c: Shipping.Coordinates): (e: Shipping.StoredCoords)
    ensures e.lat == c.lat && e.lng == c.lng
  {
    Shipping.StoredCoords(c.lat, c.lng, Signature(f))
  }

  /** Whatever was stored, shipping reads back the point the checkout located, when it
      has no zero coordinate (PHP treats 0.0 as empty). */
  lemma SessionRoundTrip(f: AddressFields, c: Shipping.Coordinates)
    requires c.lat != 0.0 && c.lng != 0.0
    ensures Shipping.SessionCoordinates(true, Some(SessionEntry(f, c))) == Some(c)
  {
  }

  class CheckoutHandler {
    /** The geocoding client the handler's `Geocoder` calls use. */
    const maps: GoogleMapsClient
    /** Whether `WC()->session` is set. */
    var sessionAvailable: bool
    /** The `woo_envios_coords` session entry. */
    var session: Option<Shipping.StoredCoords>

    constructor(maps: GoogleMapsClient, sessionAvailable: bool, session: Option<Shipping.StoredCoords>)
      ensures this.maps == maps && this.sessionAvailable == sessionAvailable && this.session == session
    {
      this.maps := maps;
      this.sessionAvailable := sessionAvailable;
      this.session := session;
    }

    /** `Geocoder::geocode`: gives up without a request on an empty address or when the
        key is not configured, otherwise geocodes the address. */
    method GeocoderGeocode(address: string, now: int, responses: seq<Response>) returns (r: Option<Shipping.Coordinates>)
      modifies maps
      ensures EmptyString(address) ==>
        r == None && maps.failures == old(maps.failures) && maps.cache == old(maps.cache)
        && maps.requests == old(maps.requests) && maps.delays == old(maps.delays)
      ensures !EmptyString(address) ==>
        var o := Geocode(old(maps.Cfg()), old(maps.failures), old(maps.cache), address, now, responses);
        r == GeocoderCoords(o.result) && maps.failures == o.failures && maps.cache == o.cache
        && maps.requests == old(maps.requests) + o.requests && maps.delays == old(maps.delays) + o.delays
      ensures maps.Cfg() == old(maps.Cfg())
    {
      if EmptyString(address) {
        return None;
      }
      if !maps.IsConfigured() {
        NotConfiguredStopsEarly(maps.Cfg(), maps.failures, maps.cache, address, now, responses);
        return None;
      }
      var result := maps.GeocodeAddress(address, now, responses);
      if result.Failed? {
        return None;
      }
      return Some(Shipping.Coordinates(result.place.latitude, result.place.longitude));
    }

    /** The AJAX handler. A rejected CEP or an empty address is answered with an error
        before any geocoding; a failed geocode is answered with an error and leaves the
        session alone; a located address is answered with its point, which is stored in
        the session (when there is one) with the address signature. */
    method HandleGeocode(f: AddressFields, now: int, responses: seq<Response>) returns (reply: Reply)
      modifies this, maps
      ensures CepRejected(f) ==>
        reply == JsonError(InvalidCepMessage(f.postcode)) && session == old(session)
        && maps.failures == old(maps.failures) && maps.cache == old(maps.cache) && maps.requests == old(maps.requests)
        && maps.delays == old(maps.delays)
      ensures !CepRejected(f) && EmptyString(FullAddress(f)) ==>
        reply == JsonError(EmptyAddressMessage) && session == old(session)
        && maps.failures == old(maps.failures) && maps.cache == old(maps.cache) && maps.requests == old(maps.requests)
        && maps.delays == old(maps.delays)
      ensures !CepRejected(f) && !EmptyString(FullAddress(f)) ==>
        var o := Geocode(old(maps.Cfg()), old(maps.failures), old(maps.cache), FullAddress(f), now, responses);
        var coords := GeocoderCoords(o.result);
        reply == GeocodeReply(f, o.result)
        && maps.failures == o.failures && maps.cache == o.cache && maps.requests == old(maps.requests) + o.requests
        && maps.delays == old(maps.delays) + o.delays
        && session == (if coords.Some? && sessionAvailable then Some(SessionEntry(f, coords.value)) else old(session))
      ensures sessionAvailable == old(sessionAvailable) && maps.Cfg() == old(maps.Cfg())
    {
      if f.country == "BR" && !EmptyString(f.postcode) {
        var cleanCep := DigitsOnly(f.postcode);
        if |cleanCep| != 8 {
          return JsonError(InvalidCepMessage(f.postcode));
        }
      }
      var fullAddress := Join(KeepTruthy([f.address1, f.number, f.neighborhood, f.city, f.state, f.postcode, f.country]), ", ");
      if EmptyString(fullAddress) {
        return JsonError(EmptyAddressMessage);
      }
      var coords := GeocoderGeocode(fullAddress, now, responses);
      if coords.None? {
        return JsonError(NotFoundMessage(fullAddress));
      }
      if sessionAvailable {
        var signature := Lower(Join([f.city, f.state, f.postcode, f.country], "|"));
        session := Some(Shipping.StoredCoords(coords.value.lat, coords.value.lng, signature));
      }
      return JsonSuccess(coords.value);
    }
  }
}
