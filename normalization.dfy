/** `normalize_with_fao_cp`: the full-irrigation and rainfed exposures of a crop
    rescaled country by country so that their production matches the mean
    production the FAO reports for the country. */
module Normalization {
  import opened Wrappers
  import opened Numeric
  import opened Strings
  import opened Parameters
  import opened Countries
  import opened Exposure
  import opened Valuation

  /** The FAO production table and `country_iso2faocode`, which maps the
      numeric ISO code of a country to its FAO area code. */
  datatype ProductionTable = ProductionTable(rows: seq<FaoRow>, isoToFao: int -> int)

  /** The area code function `Selected` applies to a row. The price lookup of
      `value_to_usd` maps its codes to ISO codes first. The production lookup at
      1000 compares `fao_code` with `fao_country[country]` as it is, so this
      function is the identity. */
  function AreaCode(code: int): int
  {
    code
  }

  /** `np.mean(fao_values[idx])`: the mean production of the country's rows for the
      crop in the year range; NaN when there is no such row. */
  function FaoProduction(t: ProductionTable, iso: int, item: string, y0: int, y1: int): (p: Num)
    ensures (forall k :: 0 <= k < |t.rows| ==> !RowMatches(AreaCode, t.rows[k], Some(t.isoToFao(iso)), item, y0, y1))
              ==> p == NaN
    ensures p.Fin? ==>
              exists k :: 0 <= k < |t.rows| && RowMatches(AreaCode, t.rows[k], Some(t.isoToFao(iso)), item, y0, y1)
    ensures var s := Selected(AreaCode, t.rows, Some(t.isoToFao(iso)), item, y0, y1);
            && (p.Fin? <==> |s| > 0 && AllFinite(s))
            && (p.Fin? ==> p.r * (|s| as real) == Sum(Values(s)))
  {
    var s := Selected(AreaCode, t.rows, Some(t.isoToFao(iso)), item, y0, y1);
    MeanOfNums(s)
  }

  /** The FAO years: `YEARS_FAO` unless a range is given. */
  function FaoYears(yearrange: Option<seq<int>>): seq<int>
  {
    if yearrange.None? then [YEARS_FAO.0, YEARS_FAO.1] else yearrange.value
  }

  // ---------------------------------------------------------------- the ratio

  /** The ratio rule as written. A country without exposure production keeps 1.
      Otherwise `fao != np.nan` holds for every float, NaN included, so a NaN FAO
      production (no FAO row at all) passes the test and the ratio becomes NaN;
      a zero FAO production keeps 1. */
  function RatioAsWritten(total: real, fao: Num): (r: Num)
    ensures total == 0.0 ==> r == Fin(1.0)
    ensures total != 0.0 ==> (r.NaN? <==> fao.NaN?)
  {
    if total == 0.0 then Fin(1.0)
    else if fao != Fin(0.0) then Times(fao, Fin(1.0 / total))
    else Fin(1.0)
  }

  /** For a country whose cells produce the crop but which has no FAO row for the
      crop in the year range, the ratio as written is NaN, so all its normalized
      values are NaN, while the corrected ratio leaves them as they are. */
  lemma RatioAsWrittenWithoutFaoRows(t: ProductionTable, iso: int, item: string, y0: int, y1: int, total: real)
    requires total != 0.0
    requires forall k :: 0 <= k < |t.rows| ==> !RowMatches(AreaCode, t.rows[k], Some(t.isoToFao(iso)), item, y0, y1)
    ensures RatioAsWritten(total, FaoProduction(t, iso, item, y0, y1)) == NaN
    ensures Ratio(total, FaoProduction(t, iso, item, y0, y1)) == 1.0
    ensures forall v :: Times(v, RatioAsWritten(total, FaoProduction(t, iso, item, y0, y1))) == NaN
  {
  }

  /** The ratio rule the code evidently intends: 1 for a country without exposure
      production or without a usable FAO production, otherwise FAO production over
      exposure production. It agrees with the rule as written wherever that one
      gives a number. */
  function Ratio(total: real, fao: Num): (k: real)
    ensures total == 0.0 || fao.NaN? || fao == Fin(0.0) ==> k == 1.0
    ensures total != 0.0 && fao.Fin? && fao.r != 0.0 ==> k * total == fao.r
    ensures RatioAsWritten(total, fao).Fin? ==> RatioAsWritten(total, fao) == Fin(k)
  {
    if total == 0.0 || fao.NaN? || fao.r == 0.0 then 1.0 else fao.r / total
  }

  // ---------------------------------------------------------------- the exposures

  /** An exposure in USD or kcal is reset to the tonnes kept in `tonnes_per_year`;
      without that column the attribute lookup fails. */
  function ResetToTonnes(e: CropExposure): (r: Outcome<CropExposure>)
    requires WellFormed(e)
    ensures r.Success? ==> WellFormed(r.value) && r.value.regionId == e.regionId && r.value.crop == e.crop
    ensures r.Failure? ==> r.error == AttributeError("tonnes_per_year")
  {
    if e.valueUnit == "USD/y" || Contains(e.valueUnit, "kcal") then
      if e.tonnesPerYear.None? then Failure(AttributeError("tonnes_per_year"))
      else Success(e.(value := e.tonnesPerYear.value))
    else Success(e)
  }

  /** Resetting a kcal exposure gives back the tonnes it was converted from. */
  lemma ResetUndoesKcal(e: CropExposure, biomass: bool)
    requires WellFormed(e) && ValueToKcal(e, biomass).Success?
    ensures WellFormed(ValueToKcal(e, biomass).value)
    ensures ResetToTonnes(ValueToKcal(e, biomass).value).Success?
    ensures ResetToTonnes(ValueToKcal(e, biomass).value).value.value == e.value
  {
    ContainsSelf("kcal/y", "kcal", "", "/y");
  }

  /** Resetting a USD exposure gives back the tonnes it was converted from. */
  lemma ResetUndoesUsd(e: CropExposure, t: PriceTable, yearrange: Option<seq<int>>, r: Outcome<CropExposure>)
    requires WellFormed(e) && IsUsdConversion(e, t, yearrange, r) && r.Success?
    ensures WellFormed(r.value)
    ensures ResetToTonnes(r.value).Success? && ResetToTonnes(r.value).value.value == e.value
  {
  }

  /** The combined production of a country in both exposures. */
  function CountryTotal(f: CropExposure, n: CropExposure, id: int): real
    requires WellFormed(f) && WellFormed(n)
  {
    RegionTotal(f.regionId, f.value, id) + RegionTotal(n.regionId, n.value, id)
  }

  /** The values `normalize_with_fao_cp` returns (with `return_data`). */
  datatype Normalized = Normalized(countries: seq<int>, ratio: seq<real>, firr: CropExposure,
                                   noirr: CropExposure, faoProduction: seq<Num>, totalProduction: seq<Num>)

  /** Per country, the combined production of both exposures. */
  function TotalColumn(f: CropExposure, n: CropExposure, countries: seq<int>): (t: seq<real>)
    requires WellFormed(f) && WellFormed(n)
  {
    seq(|countries|, j requires 0 <= j < |countries| => CountryTotal(f, n, countries[j]))
  }

  /** Per country, the FAO production of the crop in the year range; NaN when the
      crop's FAO name or the year range is missing (no country is looked up then). */
  function FaoColumn(prod: ProductionTable, countries: seq<int>, item: Option<string>, yr: seq<int>): seq<Num>
  {
    seq(|countries|, j requires 0 <= j < |countries| =>
          if item.Some? && |yr| >= 2 then FaoProduction(prod, countries[j], item.value, yr[0], yr[1]) else NaN)
  }

  /** Per country, the ratio of the FAO production to the exposure production. */
  function RatioColumn(t: seq<real>, fao: seq<Num>): (k: seq<real>)
    requires |t| == |fao|
  {
    seq(|t|, j requires 0 <= j < |t| => Ratio(t[j], fao[j]))
  }

  /** Per country, the exposure production, replaced by the FAO production where
      the exposure has none. */
  function ProductionColumn(t: seq<real>, fao: seq<Num>): (s: seq<Num>)
    requires |t| == |fao|
  {
    seq(|t|, j requires 0 <= j < |t| => if t[j] == 0.0 then fao[j] else Fin(t[j]))
  }

  /** The cells whose country is one of the first `c` multiplied by that country's
      ratio, the others as they are. */
  function Rescale(v: seq<Num>, ids: seq<int>, countries: seq<int>, ratio: seq<real>, c: nat): (r: seq<Num>)
    requires |v| == |ids| && |ratio| == |countries|
    requires forall i :: 0 <= i < |ids| ==> ids[i] in countries
  {
    seq(|v|, i requires 0 <= i < |v| =>
          var j := IndexOf(countries, ids[i]);
          if j < c then Times(v[i], Fin(ratio[j])) else v[i])
  }

  /** What the body of `normalize_with_fao_cp` computes from the exposures in
      tonnes `f` and `n`. The crop's FAO name and the year range are looked up for
      every country, so they fail exactly when there is a cell. Otherwise: the
      sorted countries of the cells, per country the FAO production, the ratio and
      the exposure production (the FAO one where the exposure has none), and the
      two exposures with every cell multiplied by its country's ratio and
      "normalized" appended to the description, nothing else changed. */
  ghost function Normalization(f: CropExposure, n: CropExposure, prod: ProductionTable, item: Option<string>,
                               yr: seq<int>): (r: Outcome<Normalized>)
    requires WellFormed(f) && WellFormed(n) && f.regionId == n.regionId
    ensures r.Success? ==> WellFormed(r.value.firr) && WellFormed(r.value.noirr)
  {
    if LookupFails(f, item, yr) then Failure(LookupError(f, item, yr))
    else
      var ids, countries := f.regionId, Unique(f.regionId);
      var t, fao := TotalColumn(f, n, countries), FaoColumn(prod, countries, item, yr);
      var ratio := RatioColumn(t, fao);
      Success(Normalized(countries, ratio,
                         f.(value := Rescale(f.value, ids, countries, ratio, |countries|),
                            description := f.description + " normalized"),
                         n.(value := Rescale(n.value, ids, countries, ratio, |countries|),
                            description := n.description + " normalized"),
                         fao, ProductionColumn(t, fao)))
  }

  /** The unit the exposures are converted to after normalizing: `set_value_to_usd`
      applies when the defaulted unit argument or the exposure's unit is 'USD/y',
      else `set_value_to_kcal` when either names kcal. */
  predicate Converts(e: CropExposure, unit: string)
  {
    unit == "USD/y" || e.valueUnit == "USD/y" || Contains(unit, "kcal") || Contains(e.valueUnit, "kcal")
  }

  /** The conversion of 1019-1027 for one exposure, `unit` being the defaulted
      unit argument: to USD with the FAO prices (default price years) when the
      argument or the exposure's unit is 'USD/y', else to kcal with the biomass
      factors when either names kcal, else none. A converted exposure keeps the
      value it had as `tonnes_per_year`. */
  function UnitConversion(e: CropExposure, unit: string, prices: PriceTable): (r: Outcome<CropExposure>)
    requires WellFormed(e)
    ensures unit == "USD/y" || e.valueUnit == "USD/y" ==> IsUsdConversion(e, prices, None, r)
    ensures !(unit == "USD/y" || e.valueUnit == "USD/y") && Converts(e, unit) ==> r == ValueToKcal(e, true)
    ensures !Converts(e, unit) ==> r == Success(e)
    ensures Converts(e, unit) && r.Success? ==> r.value.tonnesPerYear == Some(e.value)
    ensures r.Success? ==> WellFormed(r.value) && r.value.crop == e.crop && |r.value.value| == |e.value|
  {
    if unit == "USD/y" || e.valueUnit == "USD/y" then UsdValue(e, prices, None)
    else if Contains(unit, "kcal") || Contains(e.valueUnit, "kcal") then ValueToKcal(e, true)
    else Success(e)
  }

  /** The normalized exposures converted back once, rain-fed first, to the unit
      named by the unit argument or by the exposures, as the comment at 971-974
      says the conversion is meant. */
  function Restored(x: Normalized, unit: string, prices: PriceTable): (r: Outcome<Normalized>)
    requires WellFormed(x.firr) && WellFormed(x.noirr)
    ensures r.Success? ==> r.value.countries == x.countries && r.value.ratio == x.ratio
                           && r.value.faoProduction == x.faoProduction && r.value.totalProduction == x.totalProduction
    ensures r.Success? && Converts(x.firr, unit) ==> r.value.firr.tonnesPerYear == Some(x.firr.value)
    ensures r.Success? && Converts(x.noirr, unit) ==> r.value.noirr.tonnesPerYear == Some(x.noirr.value)
    ensures !Converts(x.firr, unit) && !Converts(x.noirr, unit) ==> r == Success(x)
  {
    var n :- UnitConversion(x.noirr, unit, prices);
    var f :- UnitConversion(x.firr, unit, prices);
    Success(x.(firr := f, noirr := n))
  }

  /** What `normalize_with_fao_cp` makes of two exposures on the same cells, with
      the conversion back to their unit done once on the normalized exposures:
      both are reset to tonnes, normalized, then converted. */
  ghost function NormalizedAndRestored(firr: CropExposure, noirr: CropExposure, prod: ProductionTable,
                                       prices: PriceTable, unit: Option<string>, yearrange: Option<seq<int>>)
    : Outcome<Normalized>
    requires WellFormed(firr) && WellFormed(noirr) && firr.regionId == noirr.regionId
  {
    var f :- ResetToTonnes(firr);
    var n :- ResetToTonnes(noirr);
    var x :- Normalization(f, n, prod, FaoName(firr.crop), FaoYears(yearrange));
    Restored(x, Unit(unit), prices)
  }

  ghost predicate IsNormalization(firr: CropExposure, noirr: CropExposure, prod: ProductionTable, prices: PriceTable,
                                  unit: Option<string>, yearrange: Option<seq<int>>, r: Outcome<Normalized>)
    requires WellFormed(firr) && WellFormed(noirr) && firr.regionId == noirr.regionId
  {
    r == NormalizedAndRestored(firr, noirr, prod, prices, unit, yearrange)
  }

  /** Some cell exists, and the crop's FAO name or the year range is missing. */
  predicate LookupFails(e: CropExposure, item: Option<string>, yr: seq<int>)
  {
    |e.regionId| > 0 && (item.None? || |yr| < 2)
  }

  function LookupError(e: CropExposure, item: Option<string>, yr: seq<int>): PyError
  {
    if item.None? then KeyError(e.crop)
    else IndexError(if |yr| == 0 then "yearrange[0]" else "yearrange[1]")
  }

  /** `normalize_with_fao_cp` on deep copies of the exposures, with the
      conversion back to their unit done once after the loop. */
  method NormalizeWithFao(firr: CropExposure, noirr: CropExposure, prod: ProductionTable, prices: PriceTable,
                          unit: Option<string>, yearrange: Option<seq<int>>) returns (r: Outcome<Normalized>)
    requires WellFormed(firr) && WellFormed(noirr) && firr.regionId == noirr.regionId
    ensures IsNormalization(firr, noirr, prod, prices, unit, yearrange, r)
  {
    var yr := FaoYears(yearrange);
    var f :- ResetToTonnes(firr);
    var n :- ResetToTonnes(noirr);
    var x :- NormalizeCountries(f, n, prod, FaoName(firr.crop), yr);
    r := Restored(x, Unit(unit), prices);
  }

  /** The body of `normalize_with_fao_cp` on exposures in tonnes: the countries'
      production is aggregated, then the loop over the countries fills the FAO
      production, the ratio and the exposure production, and rescales the cells of
      each country in both exposures. */
  method NormalizeCountries(f: CropExposure, n: CropExposure, prod: ProductionTable, item: Option<string>, yr: seq<int>)
    returns (r: Outcome<Normalized>)
    requires WellFormed(f) && WellFormed(n) && f.regionId == n.regionId
    ensures r == Normalization(f, n, prod, item, yr)
  {
    var ids := f.regionId;
    var countries, totF := AggregateCountries(ids, f.value);
    var countriesN, totN := AggregateCountries(n.regionId, n.value);
    var m := |countries|;
    var t := seq(m, j requires 0 <= j < m => totF[j] + totN[j]);
    TotalColumnIs(f, n, countries, totF, totN, t);
    CellsInCountries(ids, countries);
    var st :- CountryLoop(f, n, prod, item, yr, countries, t);
    r := Success(Normalized(countries, st.ratio, f.(value := st.valF, description := f.description + " normalized"),
                            n.(value := st.valN, description := n.description + " normalized"), st.faoProd, st.total));
    AfterAll(f, n, prod, item, yr, countries, t, st);
  }

  /** Every cell's region is one of the countries, so there are countries
      exactly when there are cells. */
  lemma CellsInCountries(ids: seq<int>, countries: seq<int>)
    requires countries == Unique(ids)
    ensures forall i :: 0 <= i < |ids| ==> ids[i] in countries
    ensures |countries| > 0 <==> |ids| > 0
  {
    assert forall i :: 0 <= i < |ids| ==> ids[i] in countries;
    if |countries| > 0 {
      assert countries[0] in ids;
    }
  }

  /** The arrays of the loop of `normalize_with_fao_cp`: per country the FAO
      production, the ratio and the exposure production, and the value columns of
      the two exposures. */
  datatype LoopState = LoopState(faoProd: seq<Num>, ratio: seq<real>, total: seq<Num>, valF: seq<Num>, valN: seq<Num>)

  /** Before the loop: FAO production zero, ratio one, the exposure production of
      each country its total, the cells as given. */
  function Start(f: CropExposure, n: CropExposure, t: seq<real>): LoopState
  {
    LoopState(seq(|t|, _ => Fin(0.0)), seq(|t|, _ => 1.0), seq(|t|, j requires 0 <= j < |t| => Fin(t[j])),
              f.value, n.value)
  }

  /** `column` for the first `c` entries, `init` for the others. */
  function Filled<T>(column: seq<T>, init: seq<T>, c: nat): seq<T>
    requires c <= |column| == |init|
  {
    column[..c] + init[c..]
  }

  /** The state of the loop after the first `c` countries, with `fao` the FAO
      production of every country: their entries filled in, the others still as
      before the loop, and the cells of the first `c` countries rescaled. */
  ghost function AfterCountries(f: CropExposure, n: CropExposure, countries: seq<int>, t: seq<real>, fao: seq<Num>,
                                c: nat): LoopState
    requires WellFormed(f) && WellFormed(n) && f.regionId == n.regionId
    requires |t| == |fao| == |countries| && c <= |countries|
    requires forall i :: 0 <= i < |f.regionId| ==> f.regionId[i] in countries
  {
    var s, k := Start(f, n, t), RatioColumn(t, fao);
    LoopState(Filled(fao, s.faoProd, c), Filled(k, s.ratio, c), Filled(ProductionColumn(t, fao), s.total, c),
              Rescale(f.value, f.regionId, countries, k, c), Rescale(n.value, n.regionId, countries, k, c))
  }

  /** The loop over the countries: per country the FAO production, the ratio and
      the exposure production are filled in, and the country's cells of both
      exposures are multiplied by the ratio. The first country fails when the
      crop's FAO name or the year range is missing. */
  method CountryLoop(f: CropExposure, n: CropExposure, prod: ProductionTable, item: Option<string>, yr: seq<int>,
                     countries: seq<int>, t: seq<real>)
    returns (r: Outcome<LoopState>)
    requires WellFormed(f) && WellFormed(n) && f.regionId == n.regionId
    requires StrictlyIncreasing(countries) && |t| == |countries|
    requires forall i :: 0 <= i < |f.regionId| ==> f.regionId[i] in countries
    ensures r.Failure? <==> |countries| > 0 && (item.None? || |yr| < 2)
    ensures r.Failure? ==> r.error == LookupError(f, item, yr)
    ensures r.Success? ==> r.value == AfterCountries(f, n, countries, t, FaoColumn(prod, countries, item, yr), |countries|)
  {
    ghost var fao := FaoColumn(prod, countries, item, yr);
    var st := Start(f, n, t);
    AfterNone(f, n, countries, t, fao);
    for c := 0 to |countries|
      invariant c > 0 ==> item.Some? && |yr| >= 2
      invariant st == AfterCountries(f, n, countries, t, fao, c)
    {
      if item.None? || |yr| < 2 {
        return Failure(LookupError(f, item, yr));
      }
      st := NormalizeCountry(f, n, prod, item.value, yr, countries, t, c, st);
    }
    r := Success(st);
  }

  /** The body of the loop for country `c`: the FAO production of the country, then
      either the FAO production in place of a zero exposure production or the
      ratio of a nonzero FAO production to the exposure production, then the
      country's cells of both exposures multiplied by the ratio. */
  method NormalizeCountry(f: CropExposure, n: CropExposure, prod: ProductionTable, item: string, yr: seq<int>,
                          countries: seq<int>, t: seq<real>, c: nat, st: LoopState) returns (st': LoopState)
    requires WellFormed(f) && WellFormed(n) && f.regionId == n.regionId
    requires StrictlyIncreasing(countries) && |t| == |countries| && c < |countries| && |yr| >= 2
    requires forall i :: 0 <= i < |f.regionId| ==> f.regionId[i] in countries
    requires st == AfterCountries(f, n, countries, t, FaoColumn(prod, countries, Some(item), yr), c)
    ensures st' == AfterCountries(f, n, countries, t, FaoColumn(prod, countries, Some(item), yr), c + 1)
  {
    var id := countries[c];
    var p := FaoProduction(prod, id, item, yr[0], yr[1]);
    var ratio, total := st.ratio, st.total;
    if t[c] == 0.0 {
      total := total[c := p];
    } else if p.Fin? && p.r != 0.0 {
      ratio := ratio[c := p.r / t[c]];
    }
    FilledAt(RatioColumn(t, FaoColumn(prod, countries, Some(item), yr)), Start(f, n, t).ratio, c);
    FilledAt(ProductionColumn(t, FaoColumn(prod, countries, Some(item), yr)), Start(f, n, t).total, c);
    assert ratio == st.ratio[c := Ratio(t[c], p)];
    assert total == st.total[c := if t[c] == 0.0 then p else Fin(t[c])];
    st' := LoopState(st.faoProd[c := p], ratio, total,
                     SetCells(st.valF, f.regionId, id, f.value, ratio[c]),
                     SetCells(st.valN, f.regionId, id, n.value, ratio[c]));
    AfterStep(f, n, countries, t, FaoColumn(prod, countries, Some(item), yr), c, st, st');
  }

  /** `value[region_id == country] = ratio * value[region_id == country]` on a
      copy of the column. */
  function SetCells(a: seq<Num>, iso: seq<int>, country: int, value: seq<Num>, k: real): (r: seq<Num>)
    requires |a| == |iso| == |value|
  {
    seq(|a|, i requires 0 <= i < |a| => if iso[i] == country then Times(value[i], Fin(k)) else a[i])
  }

  lemma AfterNone(f: CropExposure, n: CropExposure, countries: seq<int>, t: seq<real>, fao: seq<Num>)
    requires WellFormed(f) && WellFormed(n) && f.regionId == n.regionId
    requires |t| == |fao| == |countries|
    requires forall i :: 0 <= i < |f.regionId| ==> f.regionId[i] in countries
    ensures AfterCountries(f, n, countries, t, fao, 0) == Start(f, n, t)
  {
    var s, k := Start(f, n, t), RatioColumn(t, fao);
    FilledNone(fao, s.faoProd);
    FilledNone(k, s.ratio);
    FilledNone(ProductionColumn(t, fao), s.total);
    RescaleNone(f.value, f.regionId, countries, k);
    RescaleNone(n.value, n.regionId, countries, k);
  }

  /** One more country handled, as the loop body does. */
  lemma {:induction false} AfterStep(f: CropExposure, n: CropExposure, countries: seq<int>, t: seq<real>, fao: seq<Num>,
                                     c: nat, st: LoopState, st': LoopState)
    requires WellFormed(f) && WellFormed(n) && f.regionId == n.regionId
    requires StrictlyIncreasing(countries) && |t| == |fao| == |countries| && c < |countries|
    requires forall i :: 0 <= i < |f.regionId| ==> f.regionId[i] in countries
    requires st == AfterCountries(f, n, countries, t, fao, c)
    requires st'.faoProd == st.faoProd[c := fao[c]]
    requires st'.ratio == st.ratio[c := Ratio(t[c], fao[c])]
    requires st'.total == st.total[c := if t[c] == 0.0 then fao[c] else Fin(t[c])]
    requires st'.valF == SetCells(st.valF, f.regionId, countries[c], f.value, st'.ratio[c])
    requires st'.valN == SetCells(st.valN, f.regionId, countries[c], n.value, st'.ratio[c])
    ensures st' == AfterCountries(f, n, countries, t, fao, c + 1)
  {
    var s, k := Start(f, n, t), RatioColumn(t, fao);
    FilledStep(fao, s.faoProd, c);
    FilledStep(k, s.ratio, c);
    FilledStep(ProductionColumn(t, fao), s.total, c);
    RescaleStep(f.value, f.regionId, countries, k, c, st.valF, st'.valF);
    RescaleStep(n.value, n.regionId, countries, k, c, st.valN, st'.valN);
  }

  /** All countries handled: the loop's state is the normalization. */
  lemma {:induction false} AfterAll(f: CropExposure, n: CropExposure, prod: ProductionTable, item: Option<string>,
                                    yr: seq<int>, countries: seq<int>, t: seq<real>, st: LoopState)
    requires WellFormed(f) && WellFormed(n) && f.regionId == n.regionId
    requires countries == Unique(f.regionId) && t == TotalColumn(f, n, countries)
    requires forall i :: 0 <= i < |f.regionId| ==> f.regionId[i] in countries
    requires |countries| > 0 ==> item.Some? && |yr| >= 2
    requires st == AfterCountries(f, n, countries, t, FaoColumn(prod, countries, item, yr), |countries|)
    ensures !LookupFails(f, item, yr)
    ensures Normalization(f, n, prod, item, yr)
              == Success(Normalized(countries, st.ratio, f.(value := st.valF, description := f.description + " normalized"),
                                    n.(value := st.valN, description := n.description + " normalized"),
                                    st.faoProd, st.total))
  {
    CellsInCountries(f.regionId, countries);
    var fao, s := FaoColumn(prod, countries, item, yr), Start(f, n, t);
    FilledAll(fao, s.faoProd);
    FilledAll(RatioColumn(t, fao), s.ratio);
    FilledAll(ProductionColumn(t, fao), s.total);
  }

  lemma FilledNone<T>(column: seq<T>, init: seq<T>)
    requires |column| == |init|
    ensures Filled(column, init, 0) == init
  {
  }

  lemma FilledAll<T>(column: seq<T>, init: seq<T>)
    requires |column| == |init|
    ensures Filled(column, init, |column|) == column
  {
  }

  lemma FilledAt<T>(column: seq<T>, init: seq<T>, c: nat)
    requires c < |column| == |init|
    ensures Filled(column, init, c)[c] == init[c]
  {
  }

  /** Filling entry `c` extends the filled prefix by one. */
  lemma FilledStep<T>(column: seq<T>, init: seq<T>, c: nat)
    requires c < |column| == |init|
    ensures Filled(column, init, c)[c := column[c]] == Filled(column, init, c + 1)
  {
    assert Filled(column, init, c)[c := column[c]] == column[..c] + [column[c]] + init[c + 1..];
    assert column[..c + 1] == column[..c] + [column[c]];
  }

  /** The per-country sums of the two exposures' totals are the countries'
      combined production. */
  lemma TotalColumnIs(f: CropExposure, n: CropExposure, countries: seq<int>, totF: seq<real>, totN: seq<real>,
                      t: seq<real>)
    requires WellFormed(f) && WellFormed(n)
    requires |totF| == |totN| == |t| == |countries|
    requires forall c :: 0 <= c < |countries| ==> totF[c] == RegionTotal(f.regionId, f.value, countries[c])
    requires forall c :: 0 <= c < |countries| ==> totN[c] == RegionTotal(n.regionId, n.value, countries[c])
    requires forall c :: 0 <= c < |countries| ==> t[c] == totF[c] + totN[c]
    ensures t == TotalColumn(f, n, countries)
  {
  }

  lemma RescaleNone(v: seq<Num>, ids: seq<int>, countries: seq<int>, ratio: seq<real>)
    requires |v| == |ids| && |ratio| == |countries|
    requires forall i :: 0 <= i < |ids| ==> ids[i] in countries
    ensures Rescale(v, ids, countries, ratio, 0) == v
  {
  }

  /** Rescaling the cells of country `c` extends the rescaled prefix by one country. */
  lemma {:induction false} RescaleStep(v: seq<Num>, ids: seq<int>, countries: seq<int>, ratio: seq<real>, c: nat,
                                       before: seq<Num>, after: seq<Num>)
    requires StrictlyIncreasing(countries) && c < |countries| == |ratio| && |v| == |ids|
    requires forall i :: 0 <= i < |ids| ==> ids[i] in countries
    requires before == Rescale(v, ids, countries, ratio, c)
    requires |after| == |v|
    requires forall i :: 0 <= i < |after| ==>
               after[i] == (if ids[i] == countries[c] then Times(v[i], Fin(ratio[c])) else before[i])
    ensures after == Rescale(v, ids, countries, ratio, c + 1)
  {
    forall i | 0 <= i < |after|
      ensures after[i] == Rescale(v, ids, countries, ratio, c + 1)[i]
    {
      if ids[i] == countries[c] {
        IndexOfUnique(countries, ids[i], c);
      }
    }
  }

  // ---------------------------------------------------------------- the loop as written

  /** What the loop as written carries from one country to the next: the two
      exposures it reads, converted after every country, and the value columns of
      the normalized copies. */
  datatype WrittenState = WrittenState(f: CropExposure, n: CropExposure, valF: seq<Num>, valN: seq<Num>)

  ghost predicate WrittenWellFormed(st: WrittenState, cells: nat)
  {
    && WellFormed(st.f) && WellFormed(st.n)
    && |st.f.value| == cells && |st.n.value| == cells && |st.valF| == cells && |st.valN| == cells
  }

  /** One country of the loop as written (1014-1027): the country's cells, found
      by the full-irrigation region ids, are set to the ratio times the values the
      two exposures hold now (pandas aligns the rain-fed values by index, so a cell
      outside the rain-fed mask gets NaN); then both exposures are converted in
      place, rain-fed first. */
  function WrittenStep(st: WrittenState, id: int, k: real, unit: string, prices: PriceTable)
    : (r: Outcome<WrittenState>)
    requires WrittenWellFormed(st, |st.valF|)
    ensures r.Success? ==> WrittenWellFormed(r.value, |st.valF|)
    ensures r.Success? <==> UnitConversion(st.n, unit, prices).Success? && UnitConversion(st.f, unit, prices).Success?
    ensures r.Success? ==> r.value.n == UnitConversion(st.n, unit, prices).value
                           && r.value.f == UnitConversion(st.f, unit, prices).value
    ensures r.Success? ==> forall i :: 0 <= i < |st.valF| ==>
                             r.value.valF[i] == if st.f.regionId[i] == id then Times(st.f.value[i], Fin(k)) else st.valF[i]
  {
    var valF := SetCells(st.valF, st.f.regionId, id, st.f.value, k);
    var valN := seq(|st.valN|, i requires 0 <= i < |st.valN| =>
                      if st.f.regionId[i] != id then st.valN[i]
                      else if st.n.regionId[i] == id then Times(st.n.value[i], Fin(k))
                      else NaN);
    var n :- UnitConversion(st.n, unit, prices);
    var f :- UnitConversion(st.f, unit, prices);
    Success(WrittenState(f, n, valF, valN))
  }

  /** The loop as written after the first `c` countries. */
  ghost function WrittenAfter(f: CropExposure, n: CropExposure, countries: seq<int>, ratio: seq<real>, unit: string,
                              prices: PriceTable, c: nat): (r: Outcome<WrittenState>)
    requires WellFormed(f) && WellFormed(n) && |f.value| == |n.value| && c <= |countries| == |ratio|
    ensures r.Success? ==> WrittenWellFormed(r.value, |f.value|)
    decreases c
  {
    if c == 0 then Success(WrittenState(f, n, f.value, n.value))
    else
      var st :- WrittenAfter(f, n, countries, ratio, unit, prices, c - 1);
      WrittenStep(st, countries[c - 1], ratio[c - 1], unit, prices)
  }

  /** `normalize_with_fao_cp` as written, with the ratio of the Findings' first
      row corrected so that only the conversions differ: the conversions of
      1019-1027 run inside the loop, on the exposures the loop reads, after every
      country. So the cells of the `c`-th country are rescaled from values already
      converted `c` times, and the normalized exposures are never converted. */
  ghost function NormalizedAsWritten(firr: CropExposure, noirr: CropExposure, prod: ProductionTable,
                                     prices: PriceTable, unit: Option<string>, yearrange: Option<seq<int>>)
    : Outcome<Normalized>
    requires WellFormed(firr) && WellFormed(noirr) && firr.regionId == noirr.regionId
  {
    var f :- ResetToTonnes(firr);
    var n :- ResetToTonnes(noirr);
    var item, yr := FaoName(firr.crop), FaoYears(yearrange);
    if LookupFails(f, item, yr) then Failure(LookupError(f, item, yr))
    else
      var countries := Unique(f.regionId);
      var t, fao := TotalColumn(f, n, countries), FaoColumn(prod, countries, item, yr);
      var ratio := RatioColumn(t, fao);
      var st :- WrittenAfter(f, n, countries, ratio, Unit(unit), prices, |countries|);
      Success(Normalized(countries, ratio, f.(value := st.valF, description := f.description + " normalized"),
                         n.(value := st.valN, description := n.description + " normalized"),
                         fao, ProductionColumn(t, fao)))
  }

  /** A maize pair in kcal per year, one cell in country 1 and one in country 2,
      `tonnes` tonnes in each. */
  function KcalPair(tonnes: real): CropExposure
  {
    CropExposure([0.0, 1.0], [0.0, 1.0], [1, 2], [Fin(3560000.0 * tonnes), Fin(3560000.0 * tonnes)],
                 Some([Fin(tonnes), Fin(tonnes)]), "mai", "kcal/y", "", (2000, 2000))
  }

  /** The tonnes of the kcal pair. */
  function KcalTonnes(tonnes: real): CropExposure
  {
    KcalPair(tonnes).(value := [Fin(tonnes), Fin(tonnes)])
  }

  /** The same cells in tonnes per year, without a `tonnes_per_year` column: the
      reset of 975-978 leaves this pair alone and reads no attribute. */
  function TonnesPair(tonnes: real): CropExposure
  {
    KcalTonnes(tonnes).(valueUnit := "t/y", tonnesPerYear := None)
  }

  /** The two exhibits, after the reset, with their unit argument: the tonnes of
      the kcal pair under the default 't/y', or the tonnes pair under 'kcal/y'. */
  predicate Exhibit(f: CropExposure, n: CropExposure, u: string)
  {
    || (f == KcalTonnes(1.0) && n == KcalTonnes(0.0) && u == "t/y")
    || (f == TonnesPair(1.0) && n == TonnesPair(0.0) && u == "kcal/y")
  }

  /** The unit argument `u` and the unit of `e` are each 't/y' or 'kcal/y', and
      one of them names kcal: 1019-1027 then convert `e` to kcal. */
  predicate KcalByUnits(e: CropExposure, u: string)
  {
    && (u == "t/y" || u == "kcal/y") && (e.valueUnit == "t/y" || e.valueUnit == "kcal/y")
    && (u == "kcal/y" || e.valueUnit == "kcal/y")
  }

  /** Under `KcalByUnits` the conversion is the one to kcal with the biomass factors. */
  lemma ToKcal(e: CropExposure, u: string, prices: PriceTable)
    requires WellFormed(e) && KcalByUnits(e, u)
    ensures UnitConversion(e, u, prices) == ValueToKcal(e, true)
  {
    KcalUnits();
  }

  /** The ratios of the two countries of either exhibit, for the FAO production of
      maize over the default years. */
  function KcalRatio(prod: ProductionTable): (k: seq<real>)
    ensures |k| == 2 && k[0] != 0.0 && k[1] != 0.0
  {
    var k := RatioColumn(TotalColumn(KcalTonnes(1.0), KcalTonnes(0.0), [1, 2]),
                         FaoColumn(prod, [1, 2], Some("Maize"), FaoYears(None)));
    assert k[0] != 0.0 && k[1] != 0.0;
    k
  }

  /** The tonnes pair has the totals of the kcal pair's tonnes. */
  lemma TonnesTotals()
    ensures TotalColumn(TonnesPair(1.0), TonnesPair(0.0), [1, 2]) == TotalColumn(KcalTonnes(1.0), KcalTonnes(0.0), [1, 2])
  {
    assert TonnesPair(1.0).value == KcalTonnes(1.0).value && TonnesPair(0.0).value == KcalTonnes(0.0).value;
  }

  /** For the kcal pair, whatever the FAO tables: as written, the cell of the first
      country holds its normalized tonnes, and that of the second country its
      normalized tonnes times the kcal factor, while the unit reads 'kcal/y'; with
      the conversion done once after the loop both cells are in kcal. The two
      differ in the first country's cell. */
  lemma InLoopConversionMixesUnits(prod: ProductionTable, prices: PriceTable)
    ensures var w, r, k := NormalizedAsWritten(KcalPair(1.0), KcalPair(0.0), prod, prices, None, None),
                           NormalizedAndRestored(KcalPair(1.0), KcalPair(0.0), prod, prices, None, None), KcalRatio(prod);
            && w.Success? && r.Success? && w.value.ratio == k && r.value.ratio == k
            && w.value.firr.valueUnit == "kcal/y"
            && w.value.firr.value == [Fin(k[0]), Fin(3560000.0 * k[1])]
            && r.value.firr.value == [Fin(3560000.0 * k[0]), Fin(3560000.0 * k[1])]
            && w.value.firr.value != r.value.firr.value
  {
    KcalAsWritten(prod, prices);
    KcalRestored(prod, prices);
    var k := KcalRatio(prod);
    assert Fin(k[0]) != Fin(3560000.0 * k[0]);
  }

  /** For the tonnes pair with the unit argument 'kcal/y', whatever the FAO tables:
      no reset happens, and as written the first country's cell holds its
      normalized tonnes and the second its normalized tonnes times the kcal
      factor, under the unit 't/y'; with the conversion done once after the loop
      both cells are in kcal, under 'kcal/y'. */
  lemma InLoopConversionMixesTonnes(prod: ProductionTable, prices: PriceTable)
    ensures var w, r, k := NormalizedAsWritten(TonnesPair(1.0), TonnesPair(0.0), prod, prices, Some("kcal/y"), None),
                           NormalizedAndRestored(TonnesPair(1.0), TonnesPair(0.0), prod, prices, Some("kcal/y"), None),
                           KcalRatio(prod);
            && w.Success? && r.Success? && w.value.ratio == k && r.value.ratio == k
            && w.value.firr.valueUnit == "t/y" && r.value.firr.valueUnit == "kcal/y"
            && w.value.firr.value == [Fin(k[0]), Fin(3560000.0 * k[1])]
            && r.value.firr.value == [Fin(3560000.0 * k[0]), Fin(3560000.0 * k[1])]
            && w.value.firr.value != r.value.firr.value
  {
    TonnesAsWritten(prod, prices);
    TonnesRestored(prod, prices);
    var k := KcalRatio(prod);
    assert Fin(k[0]) != Fin(3560000.0 * k[0]);
  }

  /** The unit strings of the kcal pair and of the default unit argument. */
  lemma KcalUnits()
    ensures !Contains("t/y", "kcal") && Contains("kcal/y", "kcal")
  {
    ContainsSelf("kcal/y", "kcal", "", "/y");
    assert !Contains("t/y", "kcal") by {
      assert !Contains("/y", "kcal") by {
        assert !Contains("y", "kcal") by {
          assert "y"[1..] == [];
        }
        assert "/y"[1..] == "y";
      }
      assert "t/y"[1..] == "/y";
    }
  }

  /** The kcal pair before the loop: reset to tonnes, two countries, maize. */
  lemma KcalSetup(prod: ProductionTable)
    ensures ResetToTonnes(KcalPair(1.0)) == Success(KcalTonnes(1.0))
    ensures ResetToTonnes(KcalPair(0.0)) == Success(KcalTonnes(0.0))
    ensures Unique([1, 2]) == [1, 2] && FaoName("mai") == Some("Maize")
    ensures !LookupFails(KcalTonnes(1.0), Some("Maize"), FaoYears(None))
  {
    KcalUnits();
    UniqueTwo();
  }

  /** The tonnes pair before the loop: left as it is, two countries, maize. */
  lemma TonnesSetup(prod: ProductionTable)
    ensures ResetToTonnes(TonnesPair(1.0)) == Success(TonnesPair(1.0))
    ensures ResetToTonnes(TonnesPair(0.0)) == Success(TonnesPair(0.0))
    ensures Unique([1, 2]) == [1, 2] && FaoName("mai") == Some("Maize") && Unit(Some("kcal/y")) == "kcal/y"
    ensures !LookupFails(TonnesPair(1.0), Some("Maize"), FaoYears(None))
  {
    KcalUnits();
    UniqueTwo();
  }

  /** The loop as written on the kcal pair. */
  lemma KcalAsWritten(prod: ProductionTable, prices: PriceTable)
    ensures var w, k := NormalizedAsWritten(KcalPair(1.0), KcalPair(0.0), prod, prices, None, None), KcalRatio(prod);
            && w.Success? && w.value.ratio == k && w.value.firr.valueUnit == "kcal/y"
            && w.value.firr.value == [Fin(k[0]), Fin(3560000.0 * k[1])]
  {
    var f, n := KcalTonnes(1.0), KcalTonnes(0.0);
    ExhibitWritten(f, n, KcalRatio(prod), "t/y", prices);
    KcalSetup(prod);
    assert Unique(f.regionId) == [1, 2] && FaoName(KcalPair(1.0).crop) == Some("Maize") && Unit(None) == "t/y";
    AsWrittenOf(KcalPair(1.0), KcalPair(0.0), prod, prices, None, None, f, n);
  }

  /** The loop as written on the tonnes pair with the unit argument 'kcal/y'. */
  lemma TonnesAsWritten(prod: ProductionTable, prices: PriceTable)
    ensures var w, k := NormalizedAsWritten(TonnesPair(1.0), TonnesPair(0.0), prod, prices, Some("kcal/y"), None),
                        KcalRatio(prod);
            && w.Success? && w.value.ratio == k && w.value.firr.valueUnit == "t/y"
            && w.value.firr.value == [Fin(k[0]), Fin(3560000.0 * k[1])]
  {
    var f, n := TonnesPair(1.0), TonnesPair(0.0);
    ExhibitWritten(f, n, KcalRatio(prod), "kcal/y", prices);
    TonnesSetup(prod);
    TonnesTotals();
    assert Unique(f.regionId) == [1, 2] && FaoName(f.crop) == Some("Maize");
    AsWrittenOf(f, n, prod, prices, Some("kcal/y"), None, f, n);
  }

  /** The loop as written over the two countries of either exhibit, for any two
      ratios: the second country's cell is rescaled from its kcal value. */
  lemma ExhibitWritten(f: CropExposure, n: CropExposure, k: seq<real>, u: string, prices: PriceTable)
    requires |k| == 2 && Exhibit(f, n, u)
    ensures var w := WrittenAfter(f, n, [1, 2], k, u, prices, 2);
            w.Success? && w.value.valF == [Fin(k[0]), Fin(3560000.0 * k[1])]
  {
    WrittenOne(f, n, k, u, prices);
    WrittenTwo(f, n, k, u, prices);
  }

  /** Once both exposures are reset and the FAO lookup is possible, the result as
      written holds the cells the loop as written leaves, under the ratios. */
  lemma AsWrittenOf(firr: CropExposure, noirr: CropExposure, prod: ProductionTable, prices: PriceTable,
                    unit: Option<string>, yearrange: Option<seq<int>>, f: CropExposure, n: CropExposure)
    requires WellFormed(firr) && WellFormed(noirr) && firr.regionId == noirr.regionId
    requires ResetToTonnes(firr) == Success(f) && ResetToTonnes(noirr) == Success(n)
    requires !LookupFails(f, FaoName(firr.crop), FaoYears(yearrange))
    ensures var countries := Unique(f.regionId);
            var ratio := RatioColumn(TotalColumn(f, n, countries), FaoColumn(prod, countries, FaoName(firr.crop), FaoYears(yearrange)));
            var w := WrittenAfter(f, n, countries, ratio, Unit(unit), prices, |countries|);
            var r := NormalizedAsWritten(firr, noirr, prod, prices, unit, yearrange);
            w.Success? ==> r.Success? && r.value.ratio == ratio && r.value.firr == f.(value := w.value.valF, description := f.description + " normalized")
  {
  }

  /** The normalization of the kcal pair, restored to kcal once after the loop. */
  lemma KcalRestored(prod: ProductionTable, prices: PriceTable)
    ensures KcalCells(NormalizedAndRestored(KcalPair(1.0), KcalPair(0.0), prod, prices, None, None), KcalRatio(prod))
  {
    KcalReady(prod);
    var x := Normalization(KcalTonnes(1.0), KcalTonnes(0.0), prod, Some("Maize"), FaoYears(None)).value;
    ReadyRestored(KcalPair(1.0), KcalPair(0.0), KcalTonnes(1.0), KcalTonnes(0.0), None, prod, prices, x);
    ReadyConverted(x, None, prices, KcalRatio(prod));
  }

  /** The normalization of the tonnes pair, converted to kcal once after the loop. */
  lemma TonnesRestored(prod: ProductionTable, prices: PriceTable)
    ensures KcalCells(NormalizedAndRestored(TonnesPair(1.0), TonnesPair(0.0), prod, prices, Some("kcal/y"), None),
                      KcalRatio(prod))
  {
    TonnesReady(prod);
    var x := Normalization(TonnesPair(1.0), TonnesPair(0.0), prod, Some("Maize"), FaoYears(None)).value;
    ReadyRestored(TonnesPair(1.0), TonnesPair(0.0), TonnesPair(1.0), TonnesPair(0.0), Some("kcal/y"), prod, prices, x);
    ReadyConverted(x, Some("kcal/y"), prices, KcalRatio(prod));
  }

  /** A successful result with the ratios `k` whose full-irrigation cells are in
      kcal, from the normalized tonnes `k[0]` and `k[1]`. */
  ghost predicate KcalCells(r: Outcome<Normalized>, k: seq<real>)
    requires |k| == 2
  {
    && r.Success? && r.value.ratio == k && r.value.firr.valueUnit == "kcal/y"
    && r.value.firr.value == [Fin(3560000.0 * k[0]), Fin(3560000.0 * k[1])]
  }

  /** The kcal pair is ready for the conversion after the loop. */
  lemma KcalReady(prod: ProductionTable)
    ensures var x := Normalization(KcalTonnes(1.0), KcalTonnes(0.0), prod, Some("Maize"), FaoYears(None));
            && x.Success?
            && RestoreReady(KcalPair(1.0), KcalPair(0.0), KcalTonnes(1.0), KcalTonnes(0.0), None, prod, x.value)
            && ConvertReady(x.value, None, KcalRatio(prod))
  {
    KcalSetup(prod);
    KcalNormalized(prod);
  }

  /** The tonnes pair is ready for the conversion after the loop. */
  lemma TonnesReady(prod: ProductionTable)
    ensures var x := Normalization(TonnesPair(1.0), TonnesPair(0.0), prod, Some("Maize"), FaoYears(None));
            && x.Success?
            && RestoreReady(TonnesPair(1.0), TonnesPair(0.0), TonnesPair(1.0), TonnesPair(0.0), Some("kcal/y"), prod, x.value)
            && ConvertReady(x.value, Some("kcal/y"), KcalRatio(prod))
  {
    TonnesSetup(prod);
    TonnesNormalized(prod);
  }

  /** Two exposures reset to `f` and `n` whose normalization is `x`. */
  ghost predicate RestoreReady(firr: CropExposure, noirr: CropExposure, f: CropExposure, n: CropExposure,
                               unit: Option<string>, prod: ProductionTable, x: Normalized)
  {
    && WellFormed(firr) && WellFormed(noirr) && firr.regionId == noirr.regionId
    && ResetToTonnes(firr) == Success(f) && ResetToTonnes(noirr) == Success(n)
    && Normalization(f, n, prod, FaoName(firr.crop), FaoYears(None)) == Success(x)
  }

  /** A normalization of maize exposures with the ratios `k`, whose cells are
      `k[0]` and `k[1]`, under a unit argument that sends both to kcal. */
  ghost predicate ConvertReady(x: Normalized, unit: Option<string>, k: seq<real>)
    requires |k| == 2
  {
    && WellFormed(x.firr) && WellFormed(x.noirr) && x.ratio == k
    && x.firr.value == [Fin(k[0]), Fin(k[1])] && x.firr.crop == "mai" && x.noirr.crop == "mai"
    && KcalByUnits(x.firr, Unit(unit)) && KcalByUnits(x.noirr, Unit(unit))
  }

  /** Under `ConvertReady`, restoring `x` leaves its ratios `k` and converts its
      cells to kcal. */
  lemma ReadyConverted(x: Normalized, unit: Option<string>, prices: PriceTable, k: seq<real>)
    requires |k| == 2 && ConvertReady(x, unit, k)
    ensures KcalCells(Restored(x, Unit(unit), prices), k)
  {
    KcalConverted(x, Unit(unit), prices, k[0], k[1]);
  }

  /** Under `RestoreReady` the result is the restored normalization `x`. */
  lemma ReadyRestored(firr: CropExposure, noirr: CropExposure, f: CropExposure, n: CropExposure,
                      unit: Option<string>, prod: ProductionTable, prices: PriceTable, x: Normalized)
    requires RestoreReady(firr, noirr, f, n, unit, prod, x)
    ensures NormalizedAndRestored(firr, noirr, prod, prices, unit, None) == Restored(x, Unit(unit), prices)
  {
    RestoredOf(firr, noirr, prod, prices, unit, None, f, n);
  }

  /** Once both exposures are reset and normalized, the result is the restored
      normalization. */
  lemma RestoredOf(firr: CropExposure, noirr: CropExposure, prod: ProductionTable, prices: PriceTable,
                   unit: Option<string>, yearrange: Option<seq<int>>, f: CropExposure, n: CropExposure)
    requires WellFormed(firr) && WellFormed(noirr) && firr.regionId == noirr.regionId
    requires ResetToTonnes(firr) == Success(f) && ResetToTonnes(noirr) == Success(n)
    requires Normalization(f, n, prod, FaoName(firr.crop), FaoYears(yearrange)).Success?
    ensures NormalizedAndRestored(firr, noirr, prod, prices, unit, yearrange)
            == Restored(Normalization(f, n, prod, FaoName(firr.crop), FaoYears(yearrange)).value, Unit(unit), prices)
  {
  }

  /** The kcal pair normalized in tonnes: each cell is its country's ratio, and the
      units are kept. */
  lemma KcalNormalized(prod: ProductionTable)
    ensures var x := Normalization(KcalTonnes(1.0), KcalTonnes(0.0), prod, Some("Maize"), FaoYears(None));
            x.Success? && ConvertReady(x.value, None, KcalRatio(prod))
  {
    KcalSetup(prod);
    var x := Normalization(KcalTonnes(1.0), KcalTonnes(0.0), prod, Some("Maize"), FaoYears(None)).value;
    assert x.firr.value == [Fin(KcalRatio(prod)[0]), Fin(KcalRatio(prod)[1])] by {
      assert IndexOf([1, 2], 1) == 0 && IndexOf([1, 2], 2) == 1;
    }
  }

  /** The tonnes pair normalized: each cell is its country's ratio, and the units
      are kept. */
  lemma TonnesNormalized(prod: ProductionTable)
    ensures var x := Normalization(TonnesPair(1.0), TonnesPair(0.0), prod, Some("Maize"), FaoYears(None));
            x.Success? && ConvertReady(x.value, Some("kcal/y"), KcalRatio(prod))
  {
    TonnesSetup(prod);
    TonnesTotals();
    var x := Normalization(TonnesPair(1.0), TonnesPair(0.0), prod, Some("Maize"), FaoYears(None)).value;
    assert x.firr.value == [Fin(KcalRatio(prod)[0]), Fin(KcalRatio(prod)[1])] by {
      assert IndexOf([1, 2], 1) == 0 && IndexOf([1, 2], 2) == 1;
    }
  }

  /** Two normalized maize exposures that the unit argument `u` sends to kcal are
      converted to kcal (biomass) once. */
  lemma KcalConverted(x: Normalized, u: string, prices: PriceTable, a: real, b: real)
    requires WellFormed(x.firr) && WellFormed(x.noirr) && x.firr.value == [Fin(a), Fin(b)]
    requires KcalByUnits(x.firr, u) && KcalByUnits(x.noirr, u) && x.firr.crop == "mai" && x.noirr.crop == "mai"
    ensures var r := Restored(x, u, prices);
            && r.Success? && r.value.ratio == x.ratio && r.value.firr.valueUnit == "kcal/y"
            && r.value.firr.value == [Fin(3560000.0 * a), Fin(3560000.0 * b)]
  {
    ToKcal(x.firr, u, prices);
    ToKcal(x.noirr, u, prices);
    var f := ValueToKcal(x.firr, true).value;
    assert f.value[0] == Scale(3560000.0, x.firr.value[0]);
    assert f.value[1] == Scale(3560000.0, x.firr.value[1]);
    TwoCells(f.value, Fin(3560000.0 * a), Fin(3560000.0 * b));
  }

  lemma UniqueTwo()
    ensures Unique([1, 2]) == [1, 2]
  {
    assert [1, 2][..1] == [1];
    assert [1][..0] == [];
  }

  /** The state of the loop as written on either exhibit after its first country:
      both exposures in kcal, the first cell rescaled. */
  ghost predicate FirstCountryDone(w: Outcome<WrittenState>, ratio: seq<real>)
    requires |ratio| == 2
  {
    && w.Success? && |w.value.valF| == 2 && WrittenWellFormed(w.value, 2)
    && w.value.f.valueUnit == "kcal/y" && w.value.n.valueUnit == "kcal/y"
    && w.value.f.crop == "mai" && w.value.n.crop == "mai"
    && w.value.f.regionId == [1, 2]
    && w.value.valF[0] == Fin(ratio[0]) && w.value.f.value[1] == Fin(3560000.0)
  }

  /** The loop as written on either exhibit, first country: its cell is rescaled,
      and both exposures are converted to kcal. */
  lemma WrittenOne(f: CropExposure, n: CropExposure, ratio: seq<real>, u: string, prices: PriceTable)
    requires |ratio| == 2 && Exhibit(f, n, u)
    ensures var w := WrittenAfter(f, n, [1, 2], ratio, u, prices, 1);
            FirstCountryDone(w, ratio) && w.value.valF[1] == Fin(1.0)
  {
    var st := WrittenState(f, n, f.value, n.value);
    assert WrittenAfter(f, n, [1, 2], ratio, u, prices, 0) == Success(st);
    assert st.f.regionId == [1, 2] && st.valF == [Fin(1.0), Fin(1.0)] && st.f.value == st.valF;
    KcalStep(st, 1, ratio[0], u, prices);
    var st1 := WrittenStep(st, 1, ratio[0], u, prices).value;
    assert WrittenAfter(f, n, [1, 2], ratio, u, prices, 1) == Success(st1);
    assert st1.valF[0] == Times(Fin(1.0), Fin(ratio[0]));
    assert st1.f.value[1] == Scale(3560000.0, Fin(1.0));
  }

  /** The loop as written on either exhibit, two countries: from the state after
      the first country, the second country's cell is rescaled from its kcal
      value. */
  lemma WrittenTwo(f: CropExposure, n: CropExposure, ratio: seq<real>, u: string, prices: PriceTable)
    requires WellFormed(f) && WellFormed(n) && |f.value| == |n.value| && |ratio| == 2
    requires u == "t/y" || u == "kcal/y"
    requires FirstCountryDone(WrittenAfter(f, n, [1, 2], ratio, u, prices, 1), ratio)
    ensures var w := WrittenAfter(f, n, [1, 2], ratio, u, prices, 2);
            w.Success? && w.value.valF == [Fin(ratio[0]), Fin(3560000.0 * ratio[1])]
  {
    SecondStep(WrittenAfter(f, n, [1, 2], ratio, u, prices, 1).value, ratio[1], u, prices);
    WrittenNext(f, n, [1, 2], ratio, u, prices, 2);
  }

  /** One more country of the loop as written is one more step. */
  lemma WrittenNext(f: CropExposure, n: CropExposure, countries: seq<int>, ratio: seq<real>, unit: string,
                    prices: PriceTable, c: nat)
    requires WellFormed(f) && WellFormed(n) && |f.value| == |n.value| && 0 < c <= |countries| == |ratio|
    requires WrittenAfter(f, n, countries, ratio, unit, prices, c - 1).Success?
    ensures WrittenAfter(f, n, countries, ratio, unit, prices, c)
            == WrittenStep(WrittenAfter(f, n, countries, ratio, unit, prices, c - 1).value, countries[c - 1], ratio[c - 1], unit, prices)
  {
  }

  /** The second country's step on a two-cell kcal state: only the second cell is
      rescaled. */
  lemma SecondStep(st: WrittenState, k: real, u: string, prices: PriceTable)
    requires WrittenWellFormed(st, 2) && |st.valF| == 2 && st.f.regionId == [1, 2]
    requires st.f.valueUnit == "kcal/y" && st.n.valueUnit == "kcal/y" && st.f.crop == "mai" && st.n.crop == "mai"
    requires st.f.value[1] == Fin(3560000.0)
    requires u == "t/y" || u == "kcal/y"
    ensures var r := WrittenStep(st, 2, k, u, prices);
            r.Success? && r.value.valF == [st.valF[0], Fin(3560000.0 * k)]
  {
    KcalStep(st, 2, k, u, prices);
    var r := WrittenStep(st, 2, k, u, prices).value;
    assert r.valF[1] == Times(Fin(3560000.0), Fin(k));
    TwoCells(r.valF, st.valF[0], Fin(3560000.0 * k));
  }

  /** A sequence of two cells is the display of its two cells. */
  lemma TwoCells(a: seq<Num>, x: Num, y: Num)
    requires |a| == 2 && a[0] == x && a[1] == y
    ensures a == [x, y]
  {
  }

  /** A country of the loop as written on maize exposures that the unit argument
      sends to kcal: both exposures are converted to kcal (biomass) again. */
  lemma KcalStep(st: WrittenState, id: int, k: real, u: string, prices: PriceTable)
    requires WrittenWellFormed(st, |st.valF|)
    requires KcalByUnits(st.f, u) && KcalByUnits(st.n, u) && st.f.crop == "mai" && st.n.crop == "mai"
    ensures var r := WrittenStep(st, id, k, u, prices);
            && r.Success?
            && r.value.f.valueUnit == "kcal/y" && r.value.n.valueUnit == "kcal/y"
            && r.value.f.crop == "mai" && r.value.n.crop == "mai"
            && r.value.f.regionId == st.f.regionId
            && (forall i :: 0 <= i < |st.valF| ==> r.value.f.value[i] == Scale(3560000.0, st.f.value[i]))
            && (forall i :: 0 <= i < |st.valF| ==>
                  r.value.valF[i] == if st.f.regionId[i] == id then Times(st.f.value[i], Fin(k)) else st.valF[i])
  {
    ToKcal(st.f, u, prices);
    ToKcal(st.n, u, prices);
  }

  /** After normalization a country with exposure production and a usable FAO
      production produces, over both exposures, exactly the FAO production. */
  lemma {:induction false} NormalizedMatchesFao(f: CropExposure, n: CropExposure, prod: ProductionTable, item: Option<string>,
                             yr: seq<int>, x: Normalized, c: nat)
    requires WellFormed(f) && WellFormed(n) && f.regionId == n.regionId
    requires Normalization(f, n, prod, item, yr) == Success(x)
    requires c < |x.countries| && CountryTotal(f, n, x.countries[c]) != 0.0
    requires x.faoProduction[c].Fin? && x.faoProduction[c].r != 0.0
    ensures RegionTotal(f.regionId, x.firr.value, x.countries[c])
              + RegionTotal(n.regionId, x.noirr.value, x.countries[c]) == x.faoProduction[c].r
  {
    var id, k, ids := x.countries[c], x.ratio[c], f.regionId;
    var t, p := CountryTotal(f, n, id), x.faoProduction[c].r;
    forall i | 0 <= i < |ids| && ids[i] == id
      ensures x.firr.value[i] == Times(f.value[i], Fin(k)) && x.noirr.value[i] == Times(n.value[i], Fin(k))
    {
      IndexOfUnique(x.countries, id, c);
    }
    RatioTimes(t, x.faoProduction[c], k);
    ScaledCountry(ids, f.value, n.value, x.firr.value, x.noirr.value, id, k, t, p);
  }

  /** The ratio's second ensures, stated apart so that the proof above does not
      unfold the normalization and the ratio at once. */
  lemma RatioTimes(t: real, fao: Num, k: real)
    requires k == Ratio(t, fao) && t != 0.0 && fao.Fin? && fao.r != 0.0
    ensures k * t == fao.r
  {
  }

  /** Both exposures' cells of a country multiplied by `k`, where `k` times the
      country's production `t` is `p`: the country then produces `p`. */
  lemma {:induction false} ScaledCountry(ids: seq<int>, f: seq<Num>, n: seq<Num>, f': seq<Num>, n': seq<Num>, id: int,
                                         k: real, t: real, p: real)
    requires |ids| == |f| == |n| == |f'| == |n'|
    requires forall i :: 0 <= i < |ids| && ids[i] == id ==> f'[i] == Times(f[i], Fin(k)) && n'[i] == Times(n[i], Fin(k))
    requires t == RegionTotal(ids, f, id) + RegionTotal(ids, n, id) && k * t == p
    ensures RegionTotal(ids, f', id) + RegionTotal(ids, n', id) == p
  {
    ScaledPair(ids, f, n, f', n', id, k);
  }

  lemma {:induction false} ScaledPair(ids: seq<int>, f: seq<Num>, n: seq<Num>, f': seq<Num>, n': seq<Num>, id: int, k: real)
    requires |ids| == |f| == |n| == |f'| == |n'|
    requires forall i :: 0 <= i < |ids| && ids[i] == id ==> f'[i] == Times(f[i], Fin(k)) && n'[i] == Times(n[i], Fin(k))
    ensures RegionTotal(ids, f', id) + RegionTotal(ids, n', id) == k * (RegionTotal(ids, f, id) + RegionTotal(ids, n, id))
  {
    ScaledRegionTotal(ids, f, f', id, k);
    ScaledRegionTotal(ids, n, n', id, k);
  }

  /** A country without exposure production keeps its cells and takes the FAO
      production as its exposure production. */
  lemma {:induction false} ZeroProductionKept(f: CropExposure, n: CropExposure, prod: ProductionTable, item: Option<string>,
                           yr: seq<int>, x: Normalized, c: nat)
    requires WellFormed(f) && WellFormed(n) && f.regionId == n.regionId
    requires Normalization(f, n, prod, item, yr) == Success(x)
    requires c < |x.countries| && CountryTotal(f, n, x.countries[c]) == 0.0
    ensures x.ratio[c] == 1.0 && x.totalProduction[c] == x.faoProduction[c]
    ensures forall i :: 0 <= i < |f.regionId| && f.regionId[i] == x.countries[c] ==>
              x.firr.value[i] == f.value[i] && x.noirr.value[i] == n.value[i]
  {
    forall i | 0 <= i < |f.regionId| && f.regionId[i] == x.countries[c]
      ensures x.firr.value[i] == f.value[i] && x.noirr.value[i] == n.value[i]
    {
      IndexOfUnique(x.countries, x.countries[c], c);
      assert x.firr.value[i] == Times(f.value[i], Fin(1.0));
      assert x.noirr.value[i] == Times(n.value[i], Fin(1.0));
    }
  }
}
