/** The plugin's WooCommerce hooks (`Woo_Envios_Plugin`): registering the shipping
    methods and putting the local ("flash") rate on top of the rate list. A PHP array is
    modelled as the sequence of its entries in order, with distinct keys. */
module Plugin {
  import opened Php

  const FlashMethodId: string := "woo_envios_radius"
  const SuperFreteMethodId: string := "woo_envios_superfrete"
  const FlashClass: string := "Woo_Envios_Shipping_Method"
  const SuperFreteClass: string := "Woo_Envios\\Services\\Woo_Envios_Superfrete_Shipping_Method"

  // ------------------------------------------------------------ register_shipping_method

  /** One `$methods[key] = class` entry. */
  datatype Slot = Slot(key: string, className: string)

  function Keys(methods: seq<Slot>): set<string> {
    set s | s in methods :: s.key
  }

  /** `$methods[key]` (None when the key is absent); the first entry with the key. */
  function Lookup(methods: seq<Slot>, key: string): (r: Option<string>)
    ensures r.Some? <==> key in Keys(methods)
    decreases |methods|
  {
    if methods == [] then None
    else if methods[0].key == key then Some(methods[0].className)
    else
      assert forall s :: s in methods[1..] ==> s in methods;
      assert key in Keys(methods) ==> key in Keys(methods[1..]) by {
        if key in Keys(methods) {
          var s :| s in methods && s.key == key;
          assert s != methods[0];
          assert s in methods[1..];
        }
      }
      Lookup(methods[1..], key)
  }

  /** `$methods[key] = value`: an existing key keeps its place and gets the new value,
      a new key is appended. */
  function Assign(methods: seq<Slot>, key: string, value: string): seq<Slot>
    decreases |methods|
  {
    if methods == [] then [Slot(key, value)]
    else if methods[0].key == key then [Slot(key, value)] + methods[1..]
    else [methods[0]] + Assign(methods[1..], key, value)
  }

  /** After an assignment the key holds the value, every other key holds what it held,
      and the keys are the old ones plus the assigned one. */
  lemma {:induction false} AssignLookup(methods: seq<Slot>, key: string, value: string, other: string)
    ensures Lookup(Assign(methods, key, value), key) == Some(value)
    ensures other != key ==> Lookup(Assign(methods, key, value), other) == Lookup(methods, other)
    ensures Keys(Assign(methods, key, value)) == Keys(methods) + {key}
    ensures |Assign(methods, key, value)| <= |methods| + 1
    decreases |methods|
  {
    var r := Assign(methods, key, value);
    if methods == [] {
    } else if methods[0].key == key {
      assert r[1..] == methods[1..];
      assert methods == [methods[0]] + methods[1..];
      assert Keys(methods) == {methods[0].key} + Keys(methods[1..]);
      assert Keys(r) == {key} + Keys(methods[1..]);
    } else {
      AssignLookup(methods[1..], key, value, other);
      assert r[1..] == Assign(methods[1..], key, value);
      assert methods == [methods[0]] + methods[1..];
      assert Keys(methods) == {methods[0].key} + Keys(methods[1..]);
      assert Keys(r) == {methods[0].key} + Keys(Assign(methods[1..], key, value));
    }
  }

  /** `register_shipping_method`: registers the radius method and the SuperFrete method,
      leaving every other registered method alone. */
  function RegisterShippingMethod(methods: seq<Slot>): (r: seq<Slot>)
    ensures Lookup(r, FlashMethodId) == Some(FlashClass)
    ensures Lookup(r, SuperFreteMethodId) == Some(SuperFreteClass)
    ensures forall k :: k != FlashMethodId && k != SuperFreteMethodId ==> Lookup(r, k) == Lookup(methods, k)
    ensures Keys(r) == Keys(methods) + {FlashMethodId, SuperFreteMethodId}
    ensures |r| <= |methods| + 2
  {
    var withFlash := Assign(methods, FlashMethodId, FlashClass);
    var r := Assign(withFlash, SuperFreteMethodId, SuperFreteClass);
    AssignLookup(methods, FlashMethodId, FlashClass, SuperFreteMethodId);
    AssignLookup(withFlash, SuperFreteMethodId, SuperFreteClass, FlashMethodId);
    forall k | k != FlashMethodId && k != SuperFreteMethodId
      ensures Lookup(r, k) == Lookup(methods, k)
    {
      AssignLookup(methods, FlashMethodId, FlashClass, k);
      AssignLookup(withFlash, SuperFreteMethodId, SuperFreteClass, k);
    }
    r
  }

  // ------------------------------------------------------------ sort_shipping_rates

  /** The parts of a `WC_Shipping_Rate` the hook looks at or carries along. */
  datatype Rate = Rate(methodId: string, title: string, cost: real)

  /** One `$rates[key] = rate` entry. */
  datatype RateEntry = RateEntry(key: string, rate: Rate)

  predicate DistinctKeys(rates: seq<RateEntry>) {
    forall i, j :: 0 <= i < j < |rates| ==> rates[i].key != rates[j].key
  }

  /** A rate of this plugin's radius method, recognised by its method id or its key. */
  predicate IsFlash(e: RateEntry) {
    e.rate.methodId == FlashMethodId || Contains(e.key, FlashMethodId)
  }

  /** The entries that are (`flash`) or are not (`!flash`) flash rates, in order. */
  function Select(rates: seq<RateEntry>, flash: bool): (r: seq<RateEntry>)
    ensures forall e :: e in r ==> e in rates && IsFlash(e) == flash
    ensures |r| <= |rates|
  {
    if rates == [] then []
    else
      var init := Select(rates[..|rates| - 1], flash);
      var last := rates[|rates| - 1];
      if IsFlash(last) == flash then init + [last] else init
  }

  /** The intended order: every flash rate, then every other rate. */
  function Partitioned(rates: seq<RateEntry>): seq<RateEntry> {
    Select(rates, true) + Select(rates, false)
  }

  /** PHP's array union `a + b`: `a`, then the entries of `b` whose key `a` lacks. */
  function Union(a: seq<RateEntry>, b: seq<RateEntry>): seq<RateEntry> {
    a + Missing(b, set e | e in a :: e.key)
  }

  function Missing(b: seq<RateEntry>, keys: set<string>): (r: seq<RateEntry>)
    ensures (forall e :: e in b ==> e.key !in keys) ==> r == b
  {
    if b == [] then []
    else if b[0].key in keys then Missing(b[1..], keys)
    else assert forall e :: e in b[1..] ==> e in b; [b[0]] + Missing(b[1..], keys)
  }

  /** With distinct keys the two groups share no key, so the union is their
      concatenation. */
  lemma UnionOfGroups(rates: seq<RateEntry>)
    requires DistinctKeys(rates)
    ensures Union(Select(rates, true), Select(rates, false)) == Partitioned(rates)
  {
    var flash := Select(rates, true);
    var other := Select(rates, false);
    forall e, f | e in other && f in flash
      ensures e.key != f.key
    {
      var i :| 0 <= i < |rates| && rates[i] == f;
      var j :| 0 <= j < |rates| && rates[j] == e;
      assert i != j;
    }
  }

  /** `sort_shipping_rates`: an empty list is returned as it is; otherwise the rates are
      split into flash and other rates in one pass and joined flash first. */
  method SortShippingRates(rates: seq<RateEntry>) returns (sorted: seq<RateEntry>)
    requires DistinctKeys(rates)
    ensures sorted == Partitioned(rates)
    ensures multiset(sorted) == multiset(rates)
    ensures rates == [] ==> sorted == rates
  {
    PartitionedPermutation(rates);
    if rates == [] {
      return rates;
    }
    var flashRates: seq<RateEntry> := [];
    var otherRates: seq<RateEntry> := [];
    for i := 0 to |rates|
      invariant flashRates == Select(rates[..i], true)
      invariant otherRates == Select(rates[..i], false)
    {
      assert rates[..i + 1][..i] == rates[..i];
      if rates[i].rate.methodId == FlashMethodId || Contains(rates[i].key, FlashMethodId) {
        flashRates := flashRates + [rates[i]];
      } else {
        otherRates := otherRates + [rates[i]];
      }
    }
    assert rates[..|rates|] == rates;
    UnionOfGroups(rates);
    return Union(flashRates, otherRates);
  }

  lemma {:induction false} SelectConcat(a: seq<RateEntry>, b: seq<RateEntry>, flash: bool)
    ensures Select(a + b, flash) == Select(a, flash) + Select(b, flash)
    decreases |b|
  {
    if b == [] {
      assert a + b == a;
    } else {
      var b' := b[..|b| - 1];
      assert (a + b)[..|a + b| - 1] == a + b';
      SelectConcat(a, b', flash);
    }
  }

  lemma {:induction false} SelectSelect(rates: seq<RateEntry>, flash: bool, again: bool)
    ensures Select(Select(rates, flash), again) == (if flash == again then Select(rates, flash) else [])
    decreases |rates|
  {
    if rates != [] {
      var init := rates[..|rates| - 1];
      var last := rates[|rates| - 1];
      SelectSelect(init, flash, again);
      if IsFlash(last) == flash {
        SelectConcat(Select(init, flash), [last], again);
        assert Select([last], again) == (if flash == again then [last] else []) by {
          assert [last][..0] == [];
        }
      }
    }
  }

  /** Within each group the rates keep their input order: picking either group out of
      the result gives that group of the input. */
  lemma GroupOrderKept(rates: seq<RateEntry>, flash: bool)
    ensures Select(Partitioned(rates), flash) == Select(rates, flash)
  {
    SelectConcat(Select(rates, true), Select(rates, false), flash);
    SelectSelect(rates, true, flash);
    SelectSelect(rates, false, flash);
  }

  /** No flash rate comes after a rate of another method. */
  lemma FlashFirst(rates: seq<RateEntry>)
    ensures var r := Partitioned(rates);
      forall i, j :: 0 <= i < j < |r| && IsFlash(r[j]) ==> IsFlash(r[i])
  {
    var flash := Select(rates, true);
    var r := Partitioned(rates);
    forall i, j | 0 <= i < j < |r| && IsFlash(r[j])
      ensures IsFlash(r[i])
    {
      assert r[i] in flash;
    }
  }

  /** Nothing is dropped or duplicated: the result is a permutation of the input. */
  lemma {:induction false} PartitionedPermutation(rates: seq<RateEntry>)
    ensures multiset(Partitioned(rates)) == multiset(rates)
    decreases |rates|
  {
    if rates != [] {
      var init := rates[..|rates| - 1];
      var last := rates[|rates| - 1];
      PartitionedPermutation(init);
      assert rates == init + [last];
    }
  }

  /** Sorting an already sorted list changes nothing. */
  lemma PartitionedIdempotent(rates: seq<RateEntry>)
    ensures Partitioned(Partitioned(rates)) == Partitioned(rates)
  {
    GroupOrderKept(rates, true);
    GroupOrderKept(rates, false);
  }
}
