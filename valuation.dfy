/** Unit conversions of a crop-production exposure: `value_to_kcal` with the
    per-crop energy content, and `value_to_usd` with FAO producer prices. */
module Valuation {
  import opened Wrappers
  import opened Numeric
  import opened Parameters
  import opened Countries
  import opened Exposure

  /** `value_to_kcal`: the values are multiplied by the crop's kcal per tonne
      (biomass or dry-matter factor), the tonnes are kept in `tonnes_per_year`
      and the unit becomes 'kcal/y'; a crop without a factor raises KeyError. */
  function ValueToKcal(e: CropExposure, biomass: bool): (r: Outcome<CropExposure>)
    ensures r.Success? <==> KcalBiomass(e.crop).Some?
    ensures r.Failure? ==> r.error == KeyError(e.crop)
    ensures r.Success? ==>
              var x := r.value;
              x.tonnesPerYear == Some(e.value) && x.valueUnit == "kcal/y"
              && x.lat == e.lat && x.lon == e.lon && x.regionId == e.regionId
              && x.crop == e.crop && x.description == e.description && x.refYear == e.refYear
              && |x.value| == |e.value|
              && forall i :: 0 <= i < |e.value| ==>
                   (x.value[i].Fin? <==> e.value[i].Fin?)
                   && (e.value[i].Fin? ==> x.value[i].r == KcalPerTon(e.crop, biomass).value * e.value[i].r)
  {
    var k :- KcalPerTon(e.crop, biomass);
    Success(e.(value := seq(|e.value|, i requires 0 <= i < |e.value| => Scale(k, e.value[i])),
               tonnesPerYear := Some(e.value),
               valueUnit := "kcal/y"))
  }

  /** The tonnes kept beside a kcal value give the value back: dividing a finite
      kcal value by the crop's factor yields the tonnes of that cell, and the
      kcal total of a country is its tonnes total times the factor. */
  lemma KcalInverse(e: CropExposure, biomass: bool, c: int)
    requires WellFormed(e) && ValueToKcal(e, biomass).Success?
    ensures var x := ValueToKcal(e, biomass).value;
            var k := KcalPerTon(e.crop, biomass).value;
            && (forall i :: 0 <= i < |x.value| && x.value[i].Fin? ==>
                  x.value[i].r / k == x.tonnesPerYear.value[i].r)
            && RegionTotal(x.regionId, x.value, c) == k * RegionTotal(x.regionId, x.tonnesPerYear.value, c)
  {
    var k := KcalPerTon(e.crop, biomass).value;
    var scaled := seq(|e.value|, i requires 0 <= i < |e.value| => Scale(k, e.value[i]));
    assert ValueToKcal(e, biomass).value
             == e.(value := scaled, tonnesPerYear := Some(e.value), valueUnit := "kcal/y");
    ScaledInverse(e.regionId, e.value, scaled, c, k);
  }

  lemma ScaledInverse(region: seq<int>, before: seq<Num>, after: seq<Num>, c: int, k: real)
    requires |region| == |before| == |after| && k > 0.0
    requires forall i :: 0 <= i < |after| ==> after[i] == Scale(k, before[i])
    ensures forall i :: 0 <= i < |after| && before[i].Fin? ==> after[i].Fin? && after[i].r / k == before[i].r
    ensures RegionTotal(region, after, c) == k * RegionTotal(region, before, c)
  {
    forall i | 0 <= i < |after| && before[i].Fin?
      ensures after[i].Fin? && after[i].r / k == before[i].r
    {
      Unscale(k, before[i].r, after[i].r);
    }
    ScaledRegionTotal(region, before, after, c, k);
  }

  lemma Unscale(k: real, v: real, kv: real)
    requires k > 0.0 && kv == k * v
    ensures kv / k == v
  {
  }

  /** One row of an FAO table (producer prices or production quantities): area
      code, item, year and value. */
  datatype FaoRow = FaoRow(areaCode: int, item: string, year: int, value: Num)

  /** The FAO price table and the two country-code conversions `value_to_usd`
      calls: `country_faocode2iso` on the table's area codes and `country_to_iso`
      (numeric, fill value 999) on the region ids. */
  datatype PriceTable = PriceTable(rows: seq<FaoRow>, faoToIso: int -> int, regionToIso: int -> int)

  /** A row for `item` in a year of [y0, y1] and, when a country is given, whose
      area code `codeOf` maps to that country. */
  predicate RowMatches(codeOf: int -> int, row: FaoRow, country: Option<int>, item: string, y0: int, y1: int)
  {
    (country.None? || codeOf(row.areaCode) == country.value)
    && row.item == item && y0 <= row.year && row.year <= y1
  }

  /** `fao['price'][idx_price]`: the values of the matching rows, in table order. */
  function Selected(codeOf: int -> int, rows: seq<FaoRow>, country: Option<int>, item: string,
                    y0: int, y1: int): (r: seq<Num>)
    ensures |r| <= |rows|
    ensures |r| == 0 <==> forall k :: 0 <= k < |rows| ==> !RowMatches(codeOf, rows[k], country, item, y0, y1)
    ensures forall v :: v in r ==>
              exists k :: 0 <= k < |rows| && RowMatches(codeOf, rows[k], country, item, y0, y1) && rows[k].value == v
  {
    if |rows| == 0 then []
    else
      var rest := Selected(codeOf, rows[1..], country, item, y0, y1);
      assert forall k :: 1 <= k < |rows| ==> rows[k] == rows[1..][k - 1];
      if RowMatches(codeOf, rows[0], country, item, y0, y1) then [rows[0].value] + rest else rest
  }

  /** One more row at the end of the table adds its value exactly when it matches,
      so each matching row contributes its value once, in table order. */
  lemma {:induction false} SelectedSnoc(codeOf: int -> int, rows: seq<FaoRow>, row: FaoRow, country: Option<int>,
                                        item: string, y0: int, y1: int)
    ensures Selected(codeOf, rows + [row], country, item, y0, y1)
              == Selected(codeOf, rows, country, item, y0, y1)
                 + (if RowMatches(codeOf, row, country, item, y0, y1) then [row.value] else [])
    decreases |rows|
  {
    if |rows| == 0 {
      assert rows + [row] == [row] && [row][1..] == [];
    } else {
      var head := if RowMatches(codeOf, rows[0], country, item, y0, y1) then [rows[0].value] else [];
      var last := if RowMatches(codeOf, row, country, item, y0, y1) then [row.value] else [];
      assert (rows + [row])[0] == rows[0] && (rows + [row])[1..] == rows[1..] + [row];
      SelectedSnoc(codeOf, rows[1..], row, country, item, y0, y1);
      assert head + (Selected(codeOf, rows[1..], country, item, y0, y1) + last)
             == (head + Selected(codeOf, rows[1..], country, item, y0, y1)) + last;
    }
  }

  /** The price of a crop in a country: the mean over the country's rows in the
      year range, or the world mean over all rows when the country has none. */
  function CountryPrice(t: PriceTable, country: int, item: string, y0: int, y1: int): (p: Num)
    ensures (exists k :: 0 <= k < |t.rows| && RowMatches(t.faoToIso, t.rows[k], Some(country), item, y0, y1)) ==>
              p == MeanOfNums(Selected(t.faoToIso, t.rows, Some(country), item, y0, y1))
    ensures (forall k :: 0 <= k < |t.rows| ==> !RowMatches(t.faoToIso, t.rows[k], Some(country), item, y0, y1)) ==>
              p == MeanOfNums(Selected(t.faoToIso, t.rows, None, item, y0, y1))
  {
    var local := Selected(t.faoToIso, t.rows, Some(country), item, y0, y1);
    if |local| != 0 then MeanOfNums(local) else MeanOfNums(Selected(t.faoToIso, t.rows, None, item, y0, y1))
  }

  /** With no row at all for the crop in the year range, the price is NaN. */
  lemma NoPriceIsNaN(t: PriceTable, country: int, item: string, y0: int, y1: int)
    requires forall k :: 0 <= k < |t.rows| ==> !RowMatches(t.faoToIso, t.rows[k], None, item, y0, y1)
    ensures CountryPrice(t, country, item, y0, y1) == NaN
  {
    assert forall k :: 0 <= k < |t.rows| ==> !RowMatches(t.faoToIso, t.rows[k], Some(country), item, y0, y1);
  }

  /** The price years: `YEARS_FAO` by default, a single year doubled. */
  function UsdYears(yearrange: Option<seq<int>>): (yr: seq<int>)
    ensures |yr| != 1
    ensures yearrange.None? ==> yr == [YEARS_FAO.0, YEARS_FAO.1]
    ensures yearrange.Some? && |yearrange.value| == 1 ==> yr == [yearrange.value[0], yearrange.value[0]]
    ensures yearrange.Some? && |yearrange.value| != 1 ==> yr == yearrange.value
  {
    if yearrange.None? then [YEARS_FAO.0, YEARS_FAO.1]
    else if |yearrange.value| == 1 then [yearrange.value[0], yearrange.value[0]]
    else yearrange.value
  }

  /** Region ids with -99 replaced by 0. */
  function NoMissingRegion(region: seq<int>): (r: seq<int>)
    ensures |r| == |region|
    ensures forall i :: 0 <= i < |region| ==> r[i] != -99
    ensures forall i :: 0 <= i < |region| && region[i] != -99 ==> r[i] == region[i]
  {
    seq(|region|, i requires 0 <= i < |region| => if region[i] == -99 then 0 else region[i])
  }

  /** The numeric ISO code of a cell: 0 for no country, 999 for an unknown one. */
  function IsoCode(t: PriceTable, regionId: int): int
  {
    t.regionToIso(if regionId == -99 then 0 else regionId)
  }

  /** A code that is neither 'no country' (0) nor 'other country' (999). */
  predicate Priced(code: int)
  {
    code != 0 && code != 999
  }

  /** What `value_to_usd` makes of an exposure: each cell's tonnes times the price
      of its country, 0 for cells without a country, `value * 0` (NaN stays NaN) for
      unknown countries; the tonnes are kept, region -99 becomes 0 and the unit
      becomes 'USD/y'. The crop's FAO name and the year range are only looked up
      when some cell has a priced country, so only then can they fail. */
  ghost predicate IsUsdConversion(e: CropExposure, t: PriceTable, yearrange: Option<seq<int>>,
                                  r: Outcome<CropExposure>)
    requires WellFormed(e)
  {
    var yr, item := UsdYears(yearrange), FaoName(e.crop);
    && (r.Failure? <==> (exists i :: 0 <= i < |e.value| && Priced(IsoCode(t, e.regionId[i])))
                        && (item.None? || |yr| == 0))
    && (r.Failure? ==> r.error == (if item.None? then KeyError(e.crop) else IndexError("yearrange[0]")))
    && (r.Success? ==>
          var x := r.value;
          && x.tonnesPerYear == Some(e.value) && x.valueUnit == "USD/y"
          && x.regionId == NoMissingRegion(e.regionId)
          && x.lat == e.lat && x.lon == e.lon && x.crop == e.crop
          && x.description == e.description && x.refYear == e.refYear
          && |x.value| == |e.value|
          && (forall i :: 0 <= i < |e.value| && IsoCode(t, e.regionId[i]) == 0 ==> x.value[i] == Fin(0.0))
          && (forall i :: 0 <= i < |e.value| && IsoCode(t, e.regionId[i]) == 999 ==>
                x.value[i] == Times(e.value[i], Fin(0.0)))
          && (forall i :: 0 <= i < |e.value| && Priced(IsoCode(t, e.regionId[i])) ==>
                item.Some? && |yr| >= 2
                && x.value[i] == Times(e.value[i], CountryPrice(t, IsoCode(t, e.regionId[i]),
                                                                item.value, yr[0], yr[1]))))
  }

  /** The conversion is a function of its inputs: two results that both satisfy
      it are equal, cell by cell and field by field. */
  lemma UsdConversionUnique(e: CropExposure, t: PriceTable, yearrange: Option<seq<int>>,
                            r1: Outcome<CropExposure>, r2: Outcome<CropExposure>)
    requires WellFormed(e)
    requires IsUsdConversion(e, t, yearrange, r1) && IsUsdConversion(e, t, yearrange, r2)
    ensures r1 == r2
  {
    if r1.Success? {
      var x1, x2 := r1.value, r2.value;
      assert forall i :: 0 <= i < |x1.value| ==> x1.value[i] == x2.value[i] by {
        forall i | 0 <= i < |x1.value|
          ensures x1.value[i] == x2.value[i]
        {
          var code := IsoCode(t, e.regionId[i]);
          if code == 0 {
          } else if code == 999 {
          } else {
            assert Priced(code);
          }
        }
      }
      assert x1.value == x2.value;
    }
  }

  /** The ISO codes of the cells. */
  function IsoCodes(t: PriceTable, region: seq<int>): (iso: seq<int>)
    ensures |iso| == |region| && forall i :: 0 <= i < |region| ==> iso[i] == IsoCode(t, region[i])
  {
    seq(|region|, i requires 0 <= i < |region| => IsoCode(t, region[i]))
  }

  /** The exposure `value_to_usd` returns, as a function of its inputs: the USD
      column of the cells, or the lookup error when a priced country exists. */
  function UsdValue(e: CropExposure, t: PriceTable, yearrange: Option<seq<int>>): (r: Outcome<CropExposure>)
    requires WellFormed(e)
    ensures IsUsdConversion(e, t, yearrange, r)
  {
    var yr, item := UsdYears(yearrange), FaoName(e.crop);
    var iso := IsoCodes(t, e.regionId);
    if NeedsPrice(iso) && (item.None? || |yr| == 0) then
      Failure(if item.None? then KeyError(e.crop) else IndexError("yearrange[0]"))
    else
      Success(e.(regionId := NoMissingRegion(e.regionId), value := PriceColumn(e.value, iso, t, item, yr),
                 tonnesPerYear := Some(e.value), valueUnit := "USD/y"))
  }

  /** `value_to_usd` on a deep copy of the exposure. */
  method ValueToUsd(e: CropExposure, t: PriceTable, yearrange: Option<seq<int>>) returns (r: Outcome<CropExposure>)
    requires WellFormed(e)
    ensures IsUsdConversion(e, t, yearrange, r)
    ensures r == UsdValue(e, t, yearrange)
  {
    var n := |e.value|;
    var yr := UsdYears(yearrange);
    var iso := IsoCodes(t, e.regionId);
    var cells := PriceCells(e.value, iso, t, e.crop, FaoName(e.crop), yr);
    match cells
    case Failure(err) =>
      r := Failure(err);
    case Success(areaPrice) =>
      r := Success(e.(regionId := NoMissingRegion(e.regionId), value := areaPrice,
                      tonnesPerYear := Some(e.value), valueUnit := "USD/y"));
  }

  /** The USD value of one cell once its country is handled: 0 without a
      country, `value * 0` for an unknown country, the tonnes times the country's
      price otherwise (NaN stands for a lookup that fails before any cell is set). */
  function CellPrice(v: Num, code: int, t: PriceTable, item: Option<string>, yr: seq<int>): Num
  {
    if code == 0 then Fin(0.0)
    else if code == 999 then Times(v, Fin(0.0))
    else if item.None? || |yr| < 2 then NaN
    else Times(v, CountryPrice(t, code, item.value, yr[0], yr[1]))
  }

  /** Some cell has a country with a price, so the price table is looked up. */
  predicate NeedsPrice(iso: seq<int>)
  {
    exists i :: 0 <= i < |iso| && Priced(iso[i])
  }

  /** The USD value of every cell. */
  function PriceColumn(value: seq<Num>, iso: seq<int>, t: PriceTable, item: Option<string>, yr: seq<int>): seq<Num>
    requires |iso| == |value|
  {
    seq(|iso|, i requires 0 <= i < |iso| => CellPrice(value[i], iso[i], t, item, yr))
  }

  /** The loop over the countries of `value_to_usd`, on the cells' ISO codes: it
      fails at the first priced country when the crop's FAO name or the year
      range is missing, and otherwise leaves every cell at its USD value. */
  method PriceCells(value: seq<Num>, iso: seq<int>, t: PriceTable, crop: string, item: Option<string>, yr: seq<int>)
    returns (r: Outcome<seq<Num>>)
    requires |iso| == |value| && |yr| != 1
    ensures r.Failure? <==> NeedsPrice(iso) && (item.None? || |yr| == 0)
    ensures r.Failure? ==> r.error == (if item.None? then KeyError(crop) else IndexError("yearrange[0]"))
    ensures r.Success? ==> r.value == PriceColumn(value, iso, t, item, yr)
  {
    var n := |value|;
    var countries := Unique(iso);
    var areaPrice := new Num[n](_ => Fin(0.0));
    NeedsPriceCountry(iso, countries);
    var ok := PriceCountries(areaPrice, value, iso, t, item, yr, countries);
    if !ok {
      return Failure(if item.None? then KeyError(crop) else IndexError("yearrange[0]"));
    }
    PricedAll(areaPrice[..], value, iso, t, item, yr, countries);
    r := Success(areaPrice[..]);
  }

  /** The loop itself: false at the first priced country that cannot be priced. */
  method PriceCountries(a: array<Num>, value: seq<Num>, iso: seq<int>, t: PriceTable, item: Option<string>,
                        yr: seq<int>, countries: seq<int>) returns (ok: bool)
    requires a.Length == |iso| == |value| && StrictlyIncreasing(countries) && |yr| != 1
    requires forall i :: 0 <= i < |iso| ==> iso[i] in countries
    requires PricedUpTo(a[..], value, iso, t, item, yr, countries, 0)
    modifies a
    ensures ok <==> forall j :: 0 <= j < |countries| && Priced(countries[j]) ==> item.Some? && |yr| >= 2
    ensures ok ==> PricedUpTo(a[..], value, iso, t, item, yr, countries, |countries|)
  {
    for c := 0 to |countries|
      invariant PricedUpTo(a[..], value, iso, t, item, yr, countries, c)
      invariant forall j :: 0 <= j < c && Priced(countries[j]) ==> item.Some? && |yr| >= 2
    {
      if Priced(countries[c]) && (item.None? || |yr| == 0) {
        return false;
      }
      PriceCountry(a, value, iso, t, item, yr, countries, c);
    }
    return true;
  }

  /** Some cell needs a price exactly when some country of the cells is priced. */
  lemma NeedsPriceCountry(iso: seq<int>, countries: seq<int>)
    requires countries == Unique(iso)
    ensures forall i :: 0 <= i < |iso| ==> iso[i] in countries
    ensures NeedsPrice(iso) <==> exists j :: 0 <= j < |countries| && Priced(countries[j])
  {
    assert forall i :: 0 <= i < |iso| ==> iso[i] in countries;
    if NeedsPrice(iso) {
      var i :| 0 <= i < |iso| && Priced(iso[i]);
      assert Priced(countries[IndexOf(countries, iso[i])]);
    }
    if j :| 0 <= j < |countries| && Priced(countries[j]) {
      assert countries[j] in iso;
    }
  }

  /** Once every country is handled, each cell holds its USD value. */
  lemma PricedAll(cells: seq<Num>, value: seq<Num>, iso: seq<int>, t: PriceTable, item: Option<string>,
                  yr: seq<int>, countries: seq<int>)
    requires |cells| == |iso| == |value|
    requires forall i :: 0 <= i < |iso| ==> iso[i] in countries
    requires PricedUpTo(cells, value, iso, t, item, yr, countries, |countries|)
    ensures cells == PriceColumn(value, iso, t, item, yr)
  {
  }

  /** The cells of the first `c` countries hold their USD value, the others 0. */
  ghost predicate PricedUpTo(cells: seq<Num>, value: seq<Num>, iso: seq<int>, t: PriceTable, item: Option<string>,
                             yr: seq<int>, countries: seq<int>, c: nat)
    requires |cells| == |iso| == |value|
    requires forall i :: 0 <= i < |iso| ==> iso[i] in countries
  {
    forall i :: 0 <= i < |cells| ==>
      cells[i] == if IndexOf(countries, iso[i]) < c then CellPrice(value[i], iso[i], t, item, yr) else Fin(0.0)
  }

  /** The body of the loop for country `c`: nothing for cells without a country,
      `value * 0` for an unknown country, the tonnes times the price otherwise. */
  method PriceCountry(a: array<Num>, value: seq<Num>, iso: seq<int>, t: PriceTable, item: Option<string>, yr: seq<int>,
                      countries: seq<int>, c: nat)
    requires a.Length == |iso| == |value| && StrictlyIncreasing(countries) && c < |countries|
    requires forall i :: 0 <= i < |iso| ==> iso[i] in countries
    requires Priced(countries[c]) ==> item.Some? && |yr| >= 2
    requires PricedUpTo(a[..], value, iso, t, item, yr, countries, c)
    modifies a
    ensures PricedUpTo(a[..], value, iso, t, item, yr, countries, c + 1)
  {
    var country := countries[c];
    forall i | 0 <= i < |iso| && iso[i] == country
      ensures IndexOf(countries, iso[i]) == c
    {
      IndexOfUnique(countries, country, c);
    }
    if country == 999 {
      SetCountryCells(a, iso, country, value, Fin(0.0));
    } else if country != 0 {
      SetCountryCells(a, iso, country, value, CountryPrice(t, country, item.value, yr[0], yr[1]));
    }
  }

  /** `area_price[idx_country] = value[idx_country] * price`. */
  method SetCountryCells(a: array<Num>, iso: seq<int>, country: int, value: seq<Num>, price: Num)
    requires a.Length == |iso| == |value|
    modifies a
    ensures forall i :: 0 <= i < a.Length ==>
              a[i] == (if iso[i] == country then Times(value[i], price) else old(a[i]))
  {
    forall i | 0 <= i < a.Length && iso[i] == country {
      a[i] := Times(value[i], price);
    }
  }

  /** Within one country the USD value is the tonnes times one price, so the
      country's USD total is its tonnes total times that price. */
  lemma CountryUsdTotal(iso: seq<int>, tonnes: seq<Num>, value: seq<Num>, c: int, p: real)
    requires |iso| == |tonnes| == |value|
    requires forall i :: 0 <= i < |iso| && iso[i] == c ==> value[i] == Times(tonnes[i], Fin(p))
    ensures RegionTotal(iso, value, c) == p * RegionTotal(iso, tonnes, c)
  {
    forall i | 0 <= i < |iso| && iso[i] == c
      ensures value[i] == Scale(p, tonnes[i])
    {
    }
    ScaledRegionTotal(iso, tonnes, value, c, p);
  }
}
