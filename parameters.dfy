/** Module-level tables of crop_production.py and the defaulting of the
    keyword arguments shared by the ISIMIP entry points. */
module Parameters {
  import opened Wrappers

  /** `FN_STR_VAR`, the fixed part of an ISIMIP landuse file name. */
  const FN_STR_VAR: string := "landuse-15crops_annual"

  /** `YEARS_FAO`, the default year range for FAO prices and production. */
  const YEARS_FAO: (int, int) := (2008, 2018)

  /** Python's `not x` for an optional string argument: missing or empty. */
  predicate Falsy(x: Option<string>)
  {
    x.None? || x.value == ""
  }

  /** `isimip_version` after aliasing: missing, 'ISIMIP2a' and 'ISIMIP2b' become
      'ISIMIP2'; 'ISIMIP3a' and 'ISIMIP3b' become 'ISIMIP3'; anything else is kept. */
  function IsimipVersion(v: Option<string>): (r: string)
    ensures r != ""
    ensures Falsy(v) ==> r == "ISIMIP2"
    ensures !Falsy(v) && (v.value == "ISIMIP2a" || v.value == "ISIMIP2b") ==> r == "ISIMIP2"
    ensures !Falsy(v) && (v.value == "ISIMIP3a" || v.value == "ISIMIP3b") ==> r == "ISIMIP3"
    ensures !Falsy(v) && v.value !in {"ISIMIP2a", "ISIMIP2b", "ISIMIP3a", "ISIMIP3b"} ==> r == v.value
  {
    if Falsy(v) || v.value in {"ISIMIP2a", "ISIMIP2b"} then "ISIMIP2"
    else if v.value in {"ISIMIP3a", "ISIMIP3b"} then "ISIMIP3"
    else v.value
  }

  /** `scenario` after aliasing: missing, 'historical' and 'hist' become 'histsoc'. */
  function Scenario(s: Option<string>): (r: string)
    ensures r != ""
    ensures Falsy(s) || s.value in {"historical", "hist"} ==> r == "histsoc"
    ensures !Falsy(s) && s.value !in {"historical", "hist"} ==> r == s.value
  {
    if Falsy(s) || s.value in {"historical", "hist"} then "histsoc" else s.value
  }

  /** `irr` defaults to 'combined' only when it is missing (`is None`). */
  function Irrigation(irr: Option<string>): (r: string)
    ensures irr.None? ==> r == "combined"
    ensures irr.Some? ==> r == irr.value
  {
    if irr.None? then "combined" else irr.value
  }

  /** `unit` defaults to 't/y' when missing or empty. */
  function Unit(u: Option<string>): (r: string)
    ensures r != ""
    ensures Falsy(u) ==> r == "t/y"
    ensures !Falsy(u) ==> r == u.value
  {
    if Falsy(u) then "t/y" else u.value
  }

  /** `fn_str_var` defaults to `FN_STR_VAR` when missing or empty. */
  function FnStrVar(f: Option<string>): (r: string)
    ensures r != ""
    ensures Falsy(f) ==> r == FN_STR_VAR
    ensures !Falsy(f) ==> r == f.value
  {
    if Falsy(f) then FN_STR_VAR else f.value
  }

  /** Aliasing is idempotent: an aliased value is never aliased again. */
  lemma AliasesIdempotent(v: Option<string>, s: Option<string>, u: Option<string>)
    ensures IsimipVersion(Some(IsimipVersion(v))) == IsimipVersion(v)
    ensures Scenario(Some(Scenario(s))) == Scenario(s)
    ensures Unit(Some(Unit(u))) == Unit(u)
  {
  }

  /** One entry of `YEARCHUNKS`: the default year range of a landuse file and its
      first and last year. */
  datatype YearChunk = YearChunk(yearrange: (int, int), startyear: int, endyear: int)

  /** `YEARCHUNKS[version]`: the year chunks of an ISIMIP version by scenario;
      None for a version the table does not list. */
  function YearChunks(version: string): (t: Option<map<string, YearChunk>>)
    ensures t.Some? <==> version in {"ISIMIP2", "ISIMIP3"}
    ensures t.Some? ==> "histsoc" in t.value
  {
    match version
    case "ISIMIP2" => Some(map[
      "1860soc" := YearChunk((1800, 1860), 1661, 1860),
      "histsoc" := YearChunk((1976, 2005), 1861, 2005),
      "2005soc" := YearChunk((2006, 2099), 2006, 2299),
      "rcp26soc" := YearChunk((2006, 2099), 2006, 2099),
      "rcp60soc" := YearChunk((2006, 2099), 2006, 2099),
      "2100rcp26soc" := YearChunk((2100, 2299), 2100, 2299)])
    case "ISIMIP3" => Some(map[
      "histsoc" := YearChunk((1983, 2013), 1850, 2014),
      "2015soc" := YearChunk((1983, 2013), 1850, 2014)])
    case _ => None
  }

  /** `YEARCHUNKS[version][scenario]`, or the KeyError of the first missing key. */
  function YearChunkOf(version: string, scenario: string): (r: Outcome<YearChunk>)
    ensures r.Success? <==> YearChunks(version).Some? && scenario in YearChunks(version).value
    ensures r.Success? ==> r.value == YearChunks(version).value[scenario]
    ensures YearChunks(version).None? ==> r == Failure(KeyError(version))
    ensures YearChunks(version).Some? && r.Failure? ==> r == Failure(KeyError(scenario))
  {
    var table := YearChunks(version);
    if table.None? then Failure(KeyError(version))
    else if scenario !in table.value then Failure(KeyError(scenario))
    else Success(table.value[scenario])
  }

  /** The default year range of the functions that read several files: the one
      given, or that of the version's 'histsoc' chunk. */
  function HistsocYears(version: Option<string>, yearrange: Option<(int, int)>): (r: Outcome<(int, int)>)
    ensures yearrange.Some? ==> r == Success(yearrange.value)
    ensures yearrange.None? ==> (r.Success? <==> YearChunks(IsimipVersion(version)).Some?)
    ensures yearrange.None? && r.Success? ==>
              r.value == YearChunks(IsimipVersion(version)).value["histsoc"].yearrange
    ensures r.Failure? ==> r == Failure(KeyError(IsimipVersion(version)))
  {
    if yearrange.Some? then Success(yearrange.value)
    else
      var c :- YearChunkOf(IsimipVersion(version), "histsoc");
      Success(c.yearrange)
  }

  /** A chunk whose default year range lies inside its years. */
  ghost predicate ChunkConsistent(c: YearChunk)
  {
    c.startyear <= c.yearrange.0 <= c.yearrange.1 <= c.endyear
  }

  /** Every `YEARCHUNKS` entry has startyear <= yearrange[0] <= yearrange[1] <= endyear. */
  lemma YearChunksConsistent(version: string, scenario: string)
    requires YearChunkOf(version, scenario).Success?
    ensures ChunkConsistent(YearChunkOf(version, scenario).value)
  {
  }

  /** `time_idx`: the year range as offsets from the chunk's first year. */
  function TimeIdx(yearrange: (int, int), chunk: YearChunk): (t: (int, int))
    ensures t.1 - t.0 == yearrange.1 - yearrange.0
    ensures chunk.startyear + t.0 == yearrange.0
  {
    (yearrange.0 - chunk.startyear, yearrange.1 - chunk.startyear)
  }

  /** With the default year range of a table entry, `time_idx` is non-negative,
      ordered and inside the chunk. */
  lemma DefaultTimeIdxInChunk(version: string, scenario: string)
    requires YearChunkOf(version, scenario).Success?
    ensures var c := YearChunkOf(version, scenario).value;
            var t := TimeIdx(c.yearrange, c);
            0 <= t.0 <= t.1 <= c.endyear - c.startyear
  {
    YearChunksConsistent(version, scenario);
  }

  /** One entry of `CROP_NAME`: the crop's name in the landuse input, in FAO
      tables and in descriptions. */
  datatype CropName = CropName(input: string, fao: string, display: string)

  /** `CROP_NAME[crop]`: None for a crop the table does not list. */
  function CropNames(crop: string): (c: Option<CropName>)
    ensures c.Some? <==> crop in {"mai", "ric", "whe", "soy", "ri1", "ri2", "swh", "wwh"}
  {
    match crop
    case "mai" => Some(CropName("maize", "Maize", "Maize"))
    case "ric" => Some(CropName("rice", "Rice, paddy", "Rice"))
    case "whe" => Some(CropName("temperate_cereals", "Wheat", "Wheat"))
    case "soy" => Some(CropName("oil_crops_soybean", "Soybeans", "Soybeans"))
    case "ri1" => Some(CropName("rice", "Rice, paddy", "Rice 1st season"))
    case "ri2" => Some(CropName("rice", "Rice, paddy", "Rice 2nd season"))
    case "swh" => Some(CropName("temperate_cereals", "Wheat", "Spring Wheat"))
    case "wwh" => Some(CropName("temperate_cereals", "Wheat", "Winter Wheat"))
    case _ => None
  }

  /** `IRR_NAME[irr]['name']`: the long name of each irrigation type. */
  function IrrNames(irr: string): (n: Option<string>)
    ensures n.Some? <==> irr in {"combined", "noirr", "firr"}
  {
    match irr
    case "combined" => Some("combined")
    case "noirr" => Some("rainfed")
    case "firr" => Some("irrigated")
    case _ => None
  }

  /** `CROP_NAME[crop]`, or KeyError. */
  function CropNameOf(crop: string): (r: Outcome<CropName>)
    ensures r.Success? <==> CropNames(crop).Some?
    ensures r.Success? ==> r.value == CropNames(crop).value
    ensures r.Failure? ==> r.error == KeyError(crop)
  {
    var c := CropNames(crop);
    if c.Some? then Success(c.value) else Failure(KeyError(crop))
  }

  /** The crop's name in the FAO tables, `CROP_NAME[crop]['fao']`; None for a
      crop that is not listed. */
  function FaoName(crop: string): (o: Option<string>)
    ensures o.Some? <==> CropNames(crop).Some?
    ensures o.Some? ==> o.value == CropNames(crop).value.fao
  {
    var c := CropNames(crop);
    if c.Some? then Some(c.value.fao) else None
  }

  /** Name of the landuse variable holding a crop's area fraction for one
      irrigation type: `CROP_NAME[crop]['input'] + '_' + IRR_NAME[irr]['name']`. */
  function LanduseVariable(crop: string, irr: string): (r: Outcome<string>)
    ensures r.Success? <==> CropNames(crop).Some? && IrrNames(irr).Some?
    ensures r.Success? ==> r.value == CropNames(crop).value.input + "_" + IrrNames(irr).value
    ensures r.Failure? ==> r.error == KeyError(if CropNames(crop).None? then crop else irr)
  {
    var c, n := CropNames(crop), IrrNames(irr);
    if c.None? then Failure(KeyError(crop))
    else if n.None? then Failure(KeyError(irr))
    else Success(c.value.input + "_" + n.value)
  }

  /** `KCAL_PER_TON['biomass'][crop]`: kcal per tonne of biomass as purchased. */
  function KcalBiomass(crop: string): (k: Option<real>)
    ensures k.Some? <==> crop in {"mai", "ric", "soy", "whe"}
    ensures k.Some? ==> k.value > 0.0
  {
    match crop
    case "mai" => Some(3560000.0)
    case "ric" => Some(2800000.0)
    case "soy" => Some(3350000.0)
    case "whe" => Some(3340000.0)
    case _ => None
  }

  /** `KCAL_PER_TON['drymatter'][crop]`: the biomass factor divided by one minus
      the crop's net water content (12% maize and wheat, 13% rice, 9% soybean),
      hence larger than the biomass factor. */
  function KcalDrymatter(crop: string): (k: Option<real>)
    ensures k.Some? <==> KcalBiomass(crop).Some?
    ensures k.Some? ==> k.value > KcalBiomass(crop).value
  {
    match crop
    case "mai" => Some(3560000.0 / (1.0 - 0.12))
    case "ric" => Some(2800000.0 / (1.0 - 0.13))
    case "soy" => Some(3350000.0 / (1.0 - 0.09))
    case "whe" => Some(3340000.0 / (1.0 - 0.12))
    case _ => None
  }

  /** The conversion factor `value_to_kcal` uses, or KeyError. */
  function KcalPerTon(crop: string, biomass: bool): (r: Outcome<real>)
    ensures r.Success? <==> KcalBiomass(crop).Some?
    ensures r.Success? ==> r.value > 0.0
    ensures r.Success? && biomass ==> r.value == KcalBiomass(crop).value
    ensures r.Success? && !biomass ==> KcalDrymatter(crop).Some? && r.value == KcalDrymatter(crop).value
    ensures r.Success? && !biomass ==> r.value > KcalBiomass(crop).value
    ensures r.Failure? ==> r.error == KeyError(crop)
  {
    var b, d := KcalBiomass(crop), KcalDrymatter(crop);
    if b.None? then Failure(KeyError(crop))
    else if biomass then Success(b.value)
    else Success(d.value)
  }
}
