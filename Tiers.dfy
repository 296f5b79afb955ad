/** Local tier pricing (the settings class `Woo_Envios_Admin`): the tier table
    a store configures, how a submitted table is cleaned, the built-in table,
    and the lookup of the tier that covers a distance. */
module Tiers {
  import opened Php

  /** One pricing bracket: deliveries up to `distance` km cost `price`. */
  datatype Tier = Tier(name: string, distance: real, price: real)

  /** A row as submitted by the settings form. A key that is absent is None.
      `distance` is the raw text; `price` is what `wc_format_decimal` gave, cast to float. */
  datatype RawTier = RawTier(distance: Option<string>, price: Option<real>, name: Option<string>)

  /** The submitted value: `is_array` false, or a list of rows. */
  datatype TierInput = NotAnArray | Rows(rows: seq<RawTier>)

  /** The stored option as `get_option` hands it back. */
  datatype StoredTiers = StoredScalar | StoredArray(tiers: seq<Tier>)

  // ------------------------------------------------------------ coordinates

  /** `sanitize_coordinate`: a decimal comma becomes a point; anything that is then
      not numeric is replaced by "0". */
  function SanitizeCoordinate(value: string): (r: string)
    ensures IsNumeric(r)
    ensures ',' !in r
    ensures r == "0" || r == ReplaceChar(value, ',', '.')
    ensures IsNumeric(ReplaceChar(value, ',', '.')) ==> r == ReplaceChar(value, ',', '.')
  {
    var v := ReplaceChar(value, ',', '.');
    assert IsNumeric("0") by {
      assert LeadingDigits("0") == "0";
    }
    if IsNumeric(v) then v else "0"
  }

  // ------------------------------------------------------------ the built-in table

  /** `sprintf('%.1f', x)`: x rounded to tenths, written with one decimal. */
  function FormatOneDecimal(x: real): string {
    FormatTenths(RoundHalfAway(x * 10.0))
  }

  function FormatTenths(tenths: int): string {
    var magnitude: nat := if tenths < 0 then -tenths else tenths;
    (if tenths < 0 then "-" else "") + NatToString(magnitude / 10) + "." + [DigitChar(magnitude % 10)]
  }

  /** The label given to a row whose label is empty: "Raio %.1f km". */
  function DefaultLabel(distance: real): string {
    "Raio " + FormatOneDecimal(distance) + " km"
  }

  lemma TenthsOfWhole(k: nat)
    ensures RoundHalfAway(k as real * 10.0) == 10 * k
  {
    assert k as real * 10.0 == (10 * k) as real;
    RoundHalfAwayOfInt(10 * k);
  }

  lemma TenTimes(k: nat)
    ensures (10 * k) / 10 == k && (10 * k) % 10 == 0
  {
  }

  lemma FormatWholeTenths(m: nat, k: nat)
    requires m / 10 == k && m % 10 == 0
    ensures FormatTenths(m) == NatToString(k) + ".0"
  {
    assert FormatTenths(m) == "" + NatToString(k) + "." + [DigitChar(0)];
  }

  /** A whole-number bound k gets the label "Raio k.0 km". */
  lemma FormatWholeNumber(k: nat)
    ensures DefaultLabel(k as real) == "Raio " + NatToString(k) + ".0 km"
  {
    TenthsOfWhole(k);
    TenTimes(k);
    FormatWholeTenths(10 * k, k);
    var digits := NatToString(k);
    assert FormatOneDecimal(k as real) == digits + ".0";
    assert "Raio " + (digits + ".0") + " km" == "Raio " + digits + ".0 km";
  }

  /** `get_default_tiers`: 1 km to 30 km in 1 km steps. */
  const DefaultTiers: seq<Tier> := [
    Tier("Raio 1.0 km", 1.0, 7.50),
    Tier("Raio 2.0 km", 2.0, 8.00),
    Tier("Raio 3.0 km", 3.0, 8.50),
    Tier("Raio 4.0 km", 4.0, 9.00),
    Tier("Raio 5.0 km", 5.0, 9.50),
    Tier("Raio 6.0 km", 6.0, 10.00),
    Tier("Raio 7.0 km", 7.0, 10.90),
    Tier("Raio 8.0 km", 8.0, 11.80),
    Tier("Raio 9.0 km", 9.0, 12.70),
    Tier("Raio 10.0 km", 10.0, 13.60),
    Tier("Raio 11.0 km", 11.0, 14.50),
    Tier("Raio 12.0 km", 12.0, 15.00),
    Tier("Raio 13.0 km", 13.0, 15.50),
    Tier("Raio 14.0 km", 14.0, 16.00),
    Tier("Raio 15.0 km", 15.0, 16.50),
    Tier("Raio 16.0 km", 16.0, 17.00),
    Tier("Raio 17.0 km", 17.0, 17.50),
    Tier("Raio 18.0 km", 18.0, 18.00),
    Tier("Raio 19.0 km", 19.0, 18.50),
    Tier("Raio 20.0 km", 20.0, 19.00),
    Tier("Raio 21.0 km", 21.0, 19.50),
    Tier("Raio 22.0 km", 22.0, 20.00),
    Tier("Raio 23.0 km", 23.0, 20.50),
    Tier("Raio 24.0 km", 24.0, 21.00),
    Tier("Raio 25.0 km", 25.0, 21.50),
    Tier("Raio 26.0 km", 26.0, 22.00),
    Tier("Raio 27.0 km", 27.0, 22.50),
    Tier("Raio 28.0 km", 28.0, 23.00),
    Tier("Raio 29.0 km", 29.0, 23.50),
    Tier("Raio 30.0 km", 30.0, 24.00)
  ]

  /** Bounds never decrease along the table (what matching relies on). */
  ghost predicate SortedByDistance(tiers: seq<Tier>) {
    forall i, j :: 0 <= i < j < |tiers| ==> tiers[i].distance <= tiers[j].distance
  }

  /** A row the sanitiser would keep: positive bound, non-negative price, a label. */
  ghost predicate ValidTier(t: Tier) {
    t.distance > 0.0 && t.price >= 0.0 && !EmptyString(t.name)
  }

  /** The built-in table: row i covers i+1 km, bounds strictly ascend, prices never
      fall, and every row is valid. */
  lemma DefaultTiersShape()
    ensures |DefaultTiers| == 30
    ensures forall i :: 0 <= i < 30 ==> DefaultTiers[i].distance == (i + 1) as real
    ensures forall i, j :: 0 <= i < j < 30 ==> DefaultTiers[i].distance < DefaultTiers[j].distance
    ensures forall i, j :: 0 <= i < j < 30 ==> DefaultTiers[i].price <= DefaultTiers[j].price
    ensures forall i :: 0 <= i < 30 ==> ValidTier(DefaultTiers[i])
  {
    DefaultTiersBounds();
    DefaultTiersValid();
    DefaultTiersPriceSteps();
    PricesChain(DefaultTiers, 0, 30);
  }

  lemma DefaultTiersBounds()
    ensures |DefaultTiers| == 30
    ensures forall i :: 0 <= i < 30 ==> DefaultTiers[i].distance == (i + 1) as real
  {
  }

  lemma DefaultTiersValid()
    ensures forall i :: 0 <= i < |DefaultTiers| ==> ValidTier(DefaultTiers[i])
  {
    forall i | 0 <= i < |DefaultTiers|
      ensures ValidTier(DefaultTiers[i])
    {
      assert |DefaultTiers[i].name| >= 2;
    }
  }

  lemma DefaultTiersPriceSteps()
    ensures forall i :: 0 <= i < |DefaultTiers| - 1 ==> DefaultTiers[i].price <= DefaultTiers[i + 1].price
  {
  }

  lemma {:induction false} PricesChain(ts: seq<Tier>, lo: nat, hi: nat)
    requires lo <= hi <= |ts|
    requires forall i :: lo <= i < hi - 1 ==> ts[i].price <= ts[i + 1].price
    ensures forall i, j :: lo <= i < j < hi ==> ts[i].price <= ts[j].price
    decreases hi - lo
  {
    if hi - lo > 1 {
      PricesChain(ts, lo + 1, hi);
      forall j | lo < j < hi
        ensures ts[lo].price <= ts[j].price
      {
        assert ts[lo + 1].price <= ts[j].price || j == lo + 1;
      }
    }
  }

  // ------------------------------------------------------------ sanitising a table

  /** A submitted row's distance: its text with a decimal comma read as a float,
      or 0 when the field is absent. */
  function RowDistance(raw: RawTier): real
  {
    if raw.distance.Some? then ToFloat(ReplaceChar(raw.distance.value, ',', '.')) else 0.0
  }

  /** One submitted row, cleaned: price absent -> 0; a row with distance <= 0 or
      price < 0 is dropped; a falsy label is replaced by the generated one. */
  function SanitizeRow(raw: RawTier): (r: Option<Tier>)
    ensures r.Some? ==> ValidTier(r.value)
    ensures r.Some? <==> RowDistance(raw) > 0.0 && raw.price.GetOr(0.0) >= 0.0
    ensures r.Some? ==> r.value.distance == RowDistance(raw) && r.value.price == raw.price.GetOr(0.0)
    ensures r.Some? && !EmptyString(raw.name.GetOr("")) ==> r.value.name == raw.name.GetOr("")
    ensures r.Some? && EmptyString(raw.name.GetOr("")) ==> r.value.name == DefaultLabel(RowDistance(raw))
  {
    var distance := RowDistance(raw);
    var price := raw.price.GetOr(0.0);
    var name := raw.name.GetOr("");
    if distance <= 0.0 || price < 0.0 then None
    else Some(Tier(if EmptyString(name) then DefaultLabel(distance) else name, distance, price))
  }

  /** The rows the foreach keeps, in submission order. */
  function SanitizedRows(rows: seq<RawTier>): seq<Tier>
    decreases |rows|
  {
    if rows == [] then []
    else
      var last := SanitizeRow(rows[|rows| - 1]);
      SanitizedRows(rows[..|rows| - 1]) + (if last.Some? then [last.value] else [])
  }

  /** Every kept row is valid and is the cleaned form of some submitted row. */
  lemma {:induction false} SanitizedRowsOrigin(rows: seq<RawTier>)
    ensures forall t :: t in SanitizedRows(rows) ==> ValidTier(t)
    ensures forall t :: t in SanitizedRows(rows) ==> exists j :: 0 <= j < |rows| && SanitizeRow(rows[j]) == Some(t)
    decreases |rows|
  {
    if rows != [] {
      var init := rows[..|rows| - 1];
      SanitizedRowsOrigin(init);
      forall t | t in SanitizedRows(rows)
        ensures exists j :: 0 <= j < |rows| && SanitizeRow(rows[j]) == Some(t)
      {
        if t in SanitizedRows(init) {
          var j :| 0 <= j < |init| && SanitizeRow(init[j]) == Some(t);
          assert rows[j] == init[j];
        } else {
          assert SanitizeRow(rows[|rows| - 1]) == Some(t);
        }
      }
    }
  }

  /** A submitted row survives exactly when its cleaned form is kept. */
  lemma {:induction false} SanitizedRowsComplete(rows: seq<RawTier>, j: nat)
    requires j < |rows| && SanitizeRow(rows[j]).Some?
    ensures SanitizeRow(rows[j]).value in SanitizedRows(rows)
    decreases |rows|
  {
    if j < |rows| - 1 {
      SanitizedRowsComplete(rows[..|rows| - 1], j);
    }
  }

  /** `usort` by distance (stable, as PHP 8's sort is). */
  function SortByDistance(ts: seq<Tier>): seq<Tier>
    decreases |ts|
  {
    if ts == [] then [] else InsertByDistance(ts[0], SortByDistance(ts[1..]))
  }

  function InsertByDistance(t: Tier, sorted: seq<Tier>): seq<Tier>
    decreases |sorted|
  {
    if sorted == [] then [t]
    else if t.distance <= sorted[0].distance then [t] + sorted
    else [sorted[0]] + InsertByDistance(t, sorted[1..])
  }

  lemma {:induction false} InsertByDistanceCorrect(t: Tier, sorted: seq<Tier>)
    requires SortedByDistance(sorted)
    ensures SortedByDistance(InsertByDistance(t, sorted))
    ensures multiset(InsertByDistance(t, sorted)) == multiset(sorted) + multiset{t}
    decreases |sorted|
  {
    if sorted == [] {
    } else if t.distance <= sorted[0].distance {
      InsertInFront(t, sorted);
    } else {
      SortedSplit(sorted);
      InsertByDistanceCorrect(t, sorted[1..]);
      InsertBehindHead(t, sorted);
    }
  }

  /** A tier no farther than the head goes in front. */
  lemma InsertInFront(t: Tier, sorted: seq<Tier>)
    requires sorted != [] && SortedByDistance(sorted) && t.distance <= sorted[0].distance
    ensures SortedByDistance(InsertByDistance(t, sorted))
    ensures multiset(InsertByDistance(t, sorted)) == multiset(sorted) + multiset{t}
  {
    assert InsertByDistance(t, sorted) == [t] + sorted;
    SortedSplit(sorted);
    ConsSorted(t, sorted);
  }

  /** A tier farther than the head goes behind it, into the sorted rest. */
  lemma InsertBehindHead(t: Tier, sorted: seq<Tier>)
    requires sorted != [] && SortedByDistance(sorted) && t.distance > sorted[0].distance
    requires SortedByDistance(InsertByDistance(t, sorted[1..]))
    requires multiset(InsertByDistance(t, sorted[1..])) == multiset(sorted[1..]) + multiset{t}
    ensures SortedByDistance(InsertByDistance(t, sorted))
    ensures multiset(InsertByDistance(t, sorted)) == multiset(sorted) + multiset{t}
  {
    var rest := InsertByDistance(t, sorted[1..]);
    assert InsertByDistance(t, sorted) == [sorted[0]] + rest;
    SortedSplit(sorted);
    InsertedBound(t, sorted[1..], sorted[0].distance);
    ConsSorted(sorted[0], rest);
    assert sorted == [sorted[0]] + sorted[1..];
  }

  /** The head of a sorted table is its nearest tier, and the rest stays sorted. */
  lemma SortedSplit(s: seq<Tier>)
    requires s != [] && SortedByDistance(s)
    ensures SortedByDistance(s[1..])
    ensures forall y :: y in s ==> s[0].distance <= y.distance
    ensures forall y :: y in s[1..] ==> s[0].distance <= y.distance
  {
    var tail := s[1..];
    forall i, j | 0 <= i < j < |tail|
      ensures tail[i].distance <= tail[j].distance
    {
      assert tail[i] == s[i + 1] && tail[j] == s[j + 1];
    }
    forall y | y in s
      ensures s[0].distance <= y.distance
    {
      var k :| 0 <= k < |s| && s[k] == y;
      assert k == 0 || s[0].distance <= s[k].distance;
    }
    forall y | y in tail
      ensures s[0].distance <= y.distance
    {
      var k :| 0 <= k < |tail| && tail[k] == y;
      assert tail[k] == s[k + 1];
    }
  }

  /** A lower bound of the table and of the new tier bounds the table after inserting. */
  lemma InsertedBound(t: Tier, sorted: seq<Tier>, bound: real)
    requires multiset(InsertByDistance(t, sorted)) == multiset(sorted) + multiset{t}
    requires bound <= t.distance
    requires forall y :: y in sorted ==> bound <= y.distance
    ensures forall x :: x in InsertByDistance(t, sorted) ==> bound <= x.distance
  {
    forall x | x in InsertByDistance(t, sorted)
      ensures bound <= x.distance
    {
      InsertedFrom(t, sorted, x);
    }
  }

  /** Putting a tier no farther than any other in front keeps a table sorted. */
  lemma ConsSorted(x: Tier, s: seq<Tier>)
    requires SortedByDistance(s)
    requires forall y :: y in s ==> x.distance <= y.distance
    ensures SortedByDistance([x] + s)
  {
    var r := [x] + s;
    forall i, j | 0 <= i < j < |r|
      ensures r[i].distance <= r[j].distance
    {
      assert r[j] == s[j - 1];
      if i > 0 {
        assert r[i] == s[i - 1];
      }
    }
  }

  /** The tiers of `ts` whose bound is exactly `d`, in their order in `ts`. */
  function AtDistance(ts: seq<Tier>, d: real): seq<Tier>
    decreases |ts|
  {
    if ts == [] then [] else (if ts[0].distance == d then [ts[0]] else []) + AtDistance(ts[1..], d)
  }

  /** Inserting puts the new tier ahead of every tier with the same bound. */
  lemma {:induction false} InsertKeepsTies(t: Tier, sorted: seq<Tier>, d: real)
    ensures AtDistance(InsertByDistance(t, sorted), d) == (if t.distance == d then [t] else []) + AtDistance(sorted, d)
    decreases |sorted|
  {
    if sorted == [] {
      AtDistanceCons(t, [], d);
      assert [t] + [] == [t];
    } else if t.distance <= sorted[0].distance {
      assert InsertByDistance(t, sorted) == [t] + sorted;
      AtDistanceCons(t, sorted, d);
    } else {
      InsertKeepsTies(t, sorted[1..], d);
      TiesBehindHead(t, sorted, d);
    }
  }

  lemma AtDistanceCons(x: Tier, s: seq<Tier>, d: real)
    ensures AtDistance([x] + s, d) == (if x.distance == d then [x] else []) + AtDistance(s, d)
  {
    assert ([x] + s)[0] == x && ([x] + s)[1..] == s;
  }

  /** Passing the head keeps the tie order, since the head and the new tier cannot
      both have the bound `d`. */
  lemma TiesBehindHead(t: Tier, sorted: seq<Tier>, d: real)
    requires sorted != [] && t.distance > sorted[0].distance
    requires AtDistance(InsertByDistance(t, sorted[1..]), d)
             == (if t.distance == d then [t] else []) + AtDistance(sorted[1..], d)
    ensures AtDistance(InsertByDistance(t, sorted), d) == (if t.distance == d then [t] else []) + AtDistance(sorted, d)
  {
    var rest := InsertByDistance(t, sorted[1..]);
    assert InsertByDistance(t, sorted) == [sorted[0]] + rest;
    AtDistanceCons(sorted[0], rest, d);
    AtDistanceCons(sorted[0], sorted[1..], d);
    assert sorted == [sorted[0]] + sorted[1..];
    if t.distance == d {
      assert sorted[0].distance != d;
      assert AtDistance(sorted, d) == AtDistance(sorted[1..], d);
      assert AtDistance(InsertByDistance(t, sorted), d) == AtDistance(rest, d);
    } else {
      var head := if sorted[0].distance == d then [sorted[0]] else [];
      assert AtDistance(rest, d) == AtDistance(sorted[1..], d);
      assert AtDistance(InsertByDistance(t, sorted), d) == head + AtDistance(rest, d);
    }
  }

  /** The sort is stable: tiers with the same bound keep their submitted order. */
  lemma {:induction false} SortStable(ts: seq<Tier>, d: real)
    ensures AtDistance(SortByDistance(ts), d) == AtDistance(ts, d)
    decreases |ts|
  {
    if ts != [] {
      SortStable(ts[1..], d);
      InsertKeepsTies(ts[0], SortByDistance(ts[1..]), d);
    }
  }

  lemma InsertedFrom(t: Tier, sorted: seq<Tier>, x: Tier)
    requires multiset(InsertByDistance(t, sorted)) == multiset(sorted) + multiset{t}
    requires x in InsertByDistance(t, sorted)
    ensures x == t || x in sorted
  {
    assert x in multiset(InsertByDistance(t, sorted));
  }

  /** The sort orders by distance and neither drops nor duplicates a row. */
  lemma {:induction false} SortByDistanceCorrect(ts: seq<Tier>)
    ensures SortedByDistance(SortByDistance(ts))
    ensures multiset(SortByDistance(ts)) == multiset(ts)
    decreases |ts|
  {
    if ts != [] {
      var rest := SortByDistance(ts[1..]);
      assert SortByDistance(ts) == InsertByDistance(ts[0], rest);
      SortByDistanceCorrect(ts[1..]);
      InsertByDistanceCorrect(ts[0], rest);
      assert ts == [ts[0]] + ts[1..];
      assert multiset(ts) == multiset(ts[1..]) + multiset{ts[0]};
    }
  }

  /** `sanitize_tiers`: not an array, or no surviving row, gives the built-in table;
      otherwise the surviving rows sorted by distance. */
  method SanitizeTiers(input: TierInput) returns (r: seq<Tier>)
    ensures input.NotAnArray? ==> r == DefaultTiers
    ensures input.Rows? && SanitizedRows(input.rows) == [] ==> r == DefaultTiers
    ensures input.Rows? && SanitizedRows(input.rows) != [] ==>
      r == SortByDistance(SanitizedRows(input.rows))
      && SortedByDistance(r)
      && multiset(r) == multiset(SanitizedRows(input.rows))
  {
    if input.NotAnArray? {
      return DefaultTiers;
    }
    var rows := input.rows;
    var sanitized: seq<Tier> := [];
    var i := 0;
    while i < |rows|
      invariant 0 <= i <= |rows|
      invariant sanitized == SanitizedRows(rows[..i])
    {
      var raw := rows[i];
      var distance := if raw.distance.Some? then ToFloat(ReplaceChar(raw.distance.value, ',', '.')) else 0.0;
      var price := raw.price.GetOr(0.0);
      var name := raw.name.GetOr("");
      assert rows[..i + 1][..i] == rows[..i];
      if distance <= 0.0 || price < 0.0 {
        i := i + 1;
        continue;
      }
      sanitized := sanitized + [Tier(if EmptyString(name) then DefaultLabel(distance) else name, distance, price)];
      i := i + 1;
    }
    assert rows[..i] == rows;
    if sanitized == [] {
      return DefaultTiers;
    }
    r := SortByDistance(sanitized);
    SortByDistanceCorrect(sanitized);
  }

  /** Every table `sanitize_tiers` can store is non-empty, sorted and made of valid rows. */
  lemma SanitizedTableWellFormed(input: TierInput)
    ensures var t := SanitizedTable(input);
      t != [] && SortedByDistance(t) && forall x :: x in t ==> ValidTier(x)
  {
    DefaultTiersShape();
    if input.Rows? && SanitizedRows(input.rows) != [] {
      var s := SanitizedRows(input.rows);
      SanitizedRowsOrigin(input.rows);
      SortByDistanceCorrect(s);
      forall x | x in SortByDistance(s) ensures ValidTier(x) {
        assert x in multiset(SortByDistance(s));
      }
      assert s[0] in multiset(SortByDistance(s));
    }
  }

  /** The value `SanitizeTiers` returns, as a function (what ends up stored). */
  function SanitizedTable(input: TierInput): seq<Tier> {
    if input.NotAnArray? || SanitizedRows(input.rows) == [] then DefaultTiers
    else SortByDistance(SanitizedRows(input.rows))
  }

  // ------------------------------------------------------------ reading the table

  /** `get_tiers`: a missing, empty or non-array option gives the built-in table. */
  function GetTiers(stored: Option<StoredTiers>): (r: seq<Tier>)
    ensures r != []
    ensures stored.Some? && stored.value.StoredArray? && stored.value.tiers != [] ==> r == stored.value.tiers
  {
    match stored
    case None => DefaultTiers
    case Some(StoredScalar) => DefaultTiers
    case Some(StoredArray(ts)) => if ts == [] then DefaultTiers else ts
  }

  /** A table written by `sanitize_tiers` is read back sorted and valid. */
  lemma GetTiersAfterSanitize(input: TierInput)
    ensures var t := GetTiers(Some(StoredArray(SanitizedTable(input))));
      SortedByDistance(t) && forall x :: x in t ==> ValidTier(x)
  {
    SanitizedTableWellFormed(input);
  }

  // ------------------------------------------------------------ matching

  /** `match_tier_by_distance`: the first tier, in stored order, whose bound is at
      least the distance; None when no bound is. */
  function MatchTier(distance: real, tiers: seq<Tier>): (r: Option<Tier>)
    ensures r.Some? ==> r.value in tiers && distance <= r.value.distance
    decreases |tiers|
  {
    if tiers == [] then None
    else if distance <= tiers[0].distance then Some(tiers[0])
    else MatchTier(distance, tiers[1..])
  }

  /** The match is the FIRST covering tier: if tier i covers the distance and no earlier
      tier does, the match is tier i. */
  lemma {:induction false} MatchTierAt(distance: real, tiers: seq<Tier>, i: nat)
    requires i < |tiers| && distance <= tiers[i].distance
    requires forall j :: 0 <= j < i ==> tiers[j].distance < distance
    ensures MatchTier(distance, tiers) == Some(tiers[i])
    decreases i
  {
    if i > 0 {
      MatchTierAt(distance, tiers[1..], i - 1);
    }
  }

  /** No match exactly when the distance exceeds every bound. */
  lemma {:induction false} MatchTierNone(distance: real, tiers: seq<Tier>)
    ensures MatchTier(distance, tiers).None? <==> forall i :: 0 <= i < |tiers| ==> tiers[i].distance < distance
    decreases |tiers|
  {
    if tiers != [] {
      MatchTierNone(distance, tiers[1..]);
      assert forall i :: 1 <= i < |tiers| ==> tiers[i] == tiers[1..][i - 1];
    }
  }

  /** A distance equal to a bound matches that tier, when the bounds before it are smaller. */
  lemma BoundaryInclusive(tiers: seq<Tier>, i: nat)
    requires i < |tiers|
    requires forall j :: 0 <= j < i ==> tiers[j].distance < tiers[i].distance
    ensures MatchTier(tiers[i].distance, tiers) == Some(tiers[i])
  {
    MatchTierAt(tiers[i].distance, tiers, i);
  }

  /** Over a sorted table matching is monotone: a larger distance is matched, if at all,
      by a tier whose bound is no smaller; and a distance below a matched one is matched too. */
  lemma {:induction false} MatchTierMonotone(d1: real, d2: real, tiers: seq<Tier>)
    requires SortedByDistance(tiers) && d1 <= d2
    requires MatchTier(d2, tiers).Some?
    ensures MatchTier(d1, tiers).Some?
    ensures MatchTier(d1, tiers).value.distance <= MatchTier(d2, tiers).value.distance
    decreases |tiers|
  {
    if d2 > tiers[0].distance {
      MatchTierMonotone(d1, d2, tiers[1..]);
      if d1 <= tiers[0].distance {
        assert MatchTier(d2, tiers).value in tiers;
      }
    }
  }

  /** Beyond the last bound of a sorted table there is no match. */
  lemma BeyondLastBound(distance: real, tiers: seq<Tier>)
    requires tiers != [] && SortedByDistance(tiers)
    requires distance > tiers[|tiers| - 1].distance
    ensures MatchTier(distance, tiers).None?
  {
    MatchTierNone(distance, tiers);
  }

  /** Worked cases: 2.1 km costs 7.50 and 7.8 km costs 11.80 on a two-row table;
      9 km is out of range. */
  lemma MatchTierExamples()
    ensures var t := [Tier("3 km", 3.0, 7.50), Tier("8 km", 8.0, 11.80)];
      MatchTier(2.1, t) == Some(t[0]) && MatchTier(7.8, t) == Some(t[1]) && MatchTier(9.0, t).None?
  {
  }

  /** The built-in table covers up to 30 km inclusive and nothing beyond. */
  lemma DefaultTableRange(distance: real)
    ensures MatchTier(distance, DefaultTiers).Some? <==> distance <= 30.0
  {
    DefaultTiersShape();
    MatchTierNone(distance, DefaultTiers);
    if distance <= 30.0 {
      assert DefaultTiers[29].distance == 30.0;
    }
  }
}
