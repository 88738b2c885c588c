# Crop production exposures, modelled in Dafny

This project models the crop-production exposure module of climada_petals,
`climada_petals/entity/exposures/crop_production.py`. That module builds exposures of grid
cells (latitude, longitude, country code, value) from ISIMIP landuse data and historical-mean
yields. It converts their value from tonnes per year to kcal per year or USD per year,
aggregates it by country, averages several climate models, normalizes it against FAO
production statistics, and writes and reads back whole sets of exposure files by name.

The model is exact: values are Dafny `real`, and NaN is an explicit case (`Numeric.Num`).
The file, dataset and CSV reads become inputs:
- a landuse dataset per file name;
- a historical-mean file per name;
- an FAO price table and an FAO production table;
- the directory listings.

The country-code conversions (`country_to_iso`, `country_faocode2iso`, `country_iso2faocode`)
are function-typed parameters. Each source operation that loops becomes a method over arrays
or sequences, proved against a specification function or predicate. The properties the
module promises are proved as lemmas about those functions.

Modules, in the order of the source:
- `Wrappers` — the `Outcome` of an operation, a value or the Python exception it raises;
- `Numeric` — NaN-aware numbers, sums and means;
- `Strings` — `split`, `join`, `in` and integer printing;
- `Parameters` — module-level tables and the defaulting of arguments;
- `Filenames` — the landuse, historical-mean and exposure file names;
- `Exposure` — the exposure record;
- `Countries` — `aggregate_countries`;
- `Valuation` — `value_to_kcal` and `value_to_usd`;
- `IsimipExposure` — `from_isimip_netcdf`;
- `SeveralModels` — `from_mean_of_several_isimip_models`;
- `Normalization` — `normalize_with_fao_cp`;
- `ExposureSets` — `init_full_exp_set_isimip` and `normalize_several_exp`.

## Model

| member | source | states |
|---|---|---|
| Parameters.IsimipVersion | climada_petals/entity/exposures/crop_production.py:226-229 | a missing or empty version, 'ISIMIP2a' and 'ISIMIP2b' become 'ISIMIP2'; 'ISIMIP3a' and 'ISIMIP3b' become 'ISIMIP3'; any other version is kept |
| Parameters.Scenario | climada_petals/entity/exposures/crop_production.py:230-231 | a missing or empty scenario, 'historical' and 'hist' become 'histsoc'; any other scenario is kept |
| Parameters.Irrigation | climada_petals/entity/exposures/crop_production.py:213-214 | a missing irrigation type is 'combined'; a given one is kept |
| Parameters.Unit | climada_petals/entity/exposures/crop_production.py:234-235 | a missing or empty unit is 't/y'; a given one is kept |
| Parameters.FnStrVar | climada_petals/entity/exposures/crop_production.py:224-225 | a missing or empty file-name part is `FN_STR_VAR`, 'landuse-15crops_annual'; a given non-empty one is kept; the result is never empty |
| Parameters.AliasesIdempotent | climada_petals/entity/exposures/crop_production.py:226-235 | defaulting a version, scenario or unit a second time changes nothing |
| Parameters.YearChunks | climada_petals/entity/exposures/crop_production.py:45-59 | the table has an entry exactly for 'ISIMIP2' and 'ISIMIP3', and each entry has 'histsoc' |
| Parameters.YearChunkOf | climada_petals/entity/exposures/crop_production.py:233 | `YEARCHUNKS[version][scenario]` succeeds exactly when both keys exist; otherwise it raises KeyError of the version when that is missing, else of the scenario |
| Parameters.HistsocYears | climada_petals/entity/exposures/crop_production.py:626-627 | a given year range is kept; otherwise it is the 'histsoc' range of the defaulted version, and KeyError of the version when the version has no entry |
| Parameters.YearChunksConsistent | climada_petals/entity/exposures/crop_production.py:49-59 | every table entry has startyear <= yearrange[0] <= yearrange[1] <= endyear |
| Parameters.TimeIdx | climada_petals/entity/exposures/crop_production.py:299-300 | `time_idx` spans as many years as the year range and starts at its first year's offset from the chunk's start year |
| Parameters.DefaultTimeIdxInChunk | climada_petals/entity/exposures/crop_production.py:299-300 | with a table entry's default year range, `time_idx` is non-negative, ordered and inside the chunk |
| Parameters.CropNames | climada_petals/entity/exposures/crop_production.py:64-74 | `CROP_NAME` has an entry exactly for the eight crops mai, ric, whe, soy, ri1, ri2, swh and wwh |
| Parameters.IrrNames | climada_petals/entity/exposures/crop_production.py:77-80 | `IRR_NAME` has an entry exactly for combined, noirr and firr |
| Parameters.CropNameOf | climada_petals/entity/exposures/crop_production.py:291 | `CROP_NAME[crop]` is the crop's entry, or KeyError of the crop when there is none |
| Parameters.FaoName | climada_petals/entity/exposures/crop_production.py:810 | the FAO item name of a crop exists exactly for the crops of the table and is its 'fao' field |
| Parameters.LanduseVariable | climada_petals/entity/exposures/crop_production.py:315 | the landuse variable is `input + '_' + name` of the crop and irrigation entries; a missing crop, or else a missing irrigation type, raises KeyError of that key |
| Parameters.KcalBiomass | climada_petals/entity/exposures/crop_production.py:97-102 | biomass factors exist exactly for mai, ric, soy and whe, and they are positive |
| Parameters.KcalDrymatter | climada_petals/entity/exposures/crop_production.py:108-112 | dry-matter factors exist for the same crops, each larger than the biomass factor |
| Parameters.KcalPerTon | climada_petals/entity/exposures/crop_production.py:733-736 | the factor exists exactly for the biomass crops; it is positive, equals the biomass factor when `biomass` holds, and otherwise the dry-matter factor, which is larger; a missing crop raises KeyError |
| Strings.Split | climada_petals/entity/exposures/crop_production.py:901 | `str.split(sep)` gives at least one part, and no part holds the separator |
| Strings.SplitJoin | climada_petals/entity/exposures/crop_production.py:908-909 | joining parts without separators and splitting again gives the parts back |
| Strings.JoinSplit | climada_petals/entity/exposures/crop_production.py:1105-1109 | splitting a string and joining again gives the string back |
| Strings.ContainsIff | climada_petals/entity/exposures/crop_production.py:1092-1094 | Python's `sub in s` holds exactly when `sub` occurs in `s` at some position |
| Strings.ContainsSelf | climada_petals/entity/exposures/crop_production.py:1094 | a string built as `p + sub + q` contains `sub` |
| Strings.IntToString | climada_petals/entity/exposures/crop_production.py:909 | `str(n)` is digits, with a leading '-' for a negative number |
| Strings.ParseIntToString | climada_petals/entity/exposures/crop_production.py:262 | `int(str(n)) == n` |
| Strings.ParseInt | climada_petals/entity/exposures/crop_production.py:262 | `int(s)` skips surrounding whitespace; it succeeds only on a non-empty literal, and every failure is ValueError |
| Strings.TrimStart | climada_petals/entity/exposures/crop_production.py:262 | the leading whitespace removed: a suffix of the string that does not start with whitespace, everything cut off being whitespace |
| Strings.TrimEnd | climada_petals/entity/exposures/crop_production.py:262 | the trailing whitespace removed: a prefix of the string that does not end with whitespace, everything cut off being whitespace |
| Strings.StripPlain | climada_petals/entity/exposures/crop_production.py:262 | a string that neither starts nor ends with whitespace is its own `strip()` |
| Strings.ParseIntSpaced | climada_petals/entity/exposures/crop_production.py:262 | `int(' ' + str(n) + '\n') == n` |
| Strings.DigitsOfNat | climada_petals/entity/exposures/crop_production.py:262 | the digits printed for a natural number read back as that number |
| Strings.IntToStringPlain | climada_petals/entity/exposures/crop_production.py:909 | a printed integer holds neither '_' nor '.', and no '-' when it is not negative |
| Filenames.LanduseFilenameScenario | climada_petals/entity/exposures/crop_production.py:248-266 | the scenario read back from a default-built landuse name, as the text before its first '_', is the scenario it was built with |
| Filenames.LanduseFilename | climada_petals/entity/exposures/crop_production.py:248-266 | the default landuse name of a scenario, model, file-name part and chunk; `LanduseFilenameScenario` states its scenario reads back |
| Filenames.LanduseSelection | climada_petals/entity/exposures/crop_production.py:245-268 | without a file name, the default name of the scenario's chunk is used, and KeyError when there is no chunk; in 'flexible' mode a name without exactly 8 '_' fields raises ValueError; otherwise the chunk is that of the name's scenario prefix |
| Filenames.FlexibleYears | climada_petals/entity/exposures/crop_production.py:258-264 | in 'flexible' mode, an 8-field name gives the years of its last two fields, with '.nc' stripped, as year range, start year and end year |
| Filenames.YearsField | climada_petals/entity/exposures/crop_production.py:908-909 | the years field `y0-y1.hdf5` holds no '_' |
| Filenames.ExposureFilenameFields | climada_petals/entity/exposures/crop_production.py:908-909 | an exposure name splits into exactly four '_' fields: 'crop', 'production', `crop-irr` and the years field |
| Filenames.ExposureFilename | climada_petals/entity/exposures/crop_production.py:908-909 | `'crop_production_' + crop + '-' + irr + '_' + y0 + '-' + y1 + '.hdf5'`; `ExposureFilenameFields` and `ExposureFilenameRoundTrip` state how it reads back |
| Filenames.HistMeanFilenameFields | climada_petals/entity/exposures/crop_production.py:340-341 | a historical-mean name splits into 'hist', 'mean', `crop-irr` and the years field |
| Filenames.SplitCropIrr | climada_petals/entity/exposures/crop_production.py:902 | `crop, irr = s.split('-')` succeeds exactly when there are two parts; they hold no '-' and join back to `s` |
| Filenames.SplitCropIrrRoundTrip | climada_petals/entity/exposures/crop_production.py:902 | `crop + '-' + irr` splits back into crop and irr when neither holds '-' |
| Filenames.HistMeanCropIrr | climada_petals/entity/exposures/crop_production.py:901-902 | a name with fewer than three '_' fields raises ValueError; otherwise the result is its third field split on '-' |
| Filenames.HistMeanCropIrrRoundTrip | climada_petals/entity/exposures/crop_production.py:901-902 | a historical-mean name parses back into its crop and irrigation type |
| Filenames.ExposureCropYears | climada_petals/entity/exposures/crop_production.py:1105-1106 | `_, _, crop_irr, years = f.split('_')` then `crop, _ = crop_irr.split('-')` succeeds exactly when there are four '_' fields and the third splits into two '-' parts; it then gives that first part and the fourth field; every failure is ValueError |
| Filenames.ExposureFilenameRoundTrip | climada_petals/entity/exposures/crop_production.py:1105-1109 | an exposure name parses back into its crop and years field, and the rain-fed partner name derived from them is the name built with irr = 'noirr' |
| Filenames.NoirrPartner | climada_petals/entity/exposures/crop_production.py:1109 | the rain-fed partner's name from the crop and years field; `ExposureFilenameRoundTrip` states it is the name built with irr = 'noirr' |
| Numeric.NanToNum | climada_petals/entity/exposures/crop_production.py:318 | `nan_to_num` is the value of a finite number and 0 for NaN |
| Numeric.Times | climada_petals/entity/exposures/crop_production.py:316 | a product is finite exactly when both factors are, and then it is their product |
| Numeric.Scale | climada_petals/entity/exposures/crop_production.py:734 | scaling keeps NaN and multiplies finite values |
| Numeric.MeanOf | climada_petals/entity/exposures/crop_production.py:816 | the mean is NaN exactly for no values; otherwise the mean times the count is the sum |
| Numeric.Values | climada_petals/entity/exposures/crop_production.py:671 | the reals of a NaN-free column, cell by cell |
| Numeric.MeanOfNums | climada_petals/entity/exposures/crop_production.py:671 | `np.mean` is finite exactly when there is a value and no value is NaN |
| Numeric.SumAppend | climada_petals/entity/exposures/crop_production.py:703 | the sum of a concatenation is the sum of the sums |
| Numeric.SumScaled | climada_petals/entity/exposures/crop_production.py:1014-1017 | scaling every value scales the sum |
| Numeric.SumPermutation | climada_petals/entity/exposures/crop_production.py:671 | the sum does not depend on the order of the values |
| Numeric.MeanOfNumsPermutation | climada_petals/entity/exposures/crop_production.py:671 | the NaN-aware mean does not depend on the order of the values |
| Numeric.ValuesPermutation | climada_petals/entity/exposures/crop_production.py:671 | permuting NaN-free columns permutes their values |
| Numeric.SumSkipNaNIsSum | climada_petals/entity/exposures/crop_production.py:703 | pandas' `.sum()`, which skips NaN, is the sum after `nan_to_num` |
| Countries.Insert | climada_petals/entity/exposures/crop_production.py:700 | inserting into a strictly increasing list keeps it strictly increasing and adds exactly the new element |
| Countries.Unique | climada_petals/entity/exposures/crop_production.py:700 | `np.unique` is strictly increasing and holds exactly the elements of its input |
| Countries.IndexOf | climada_petals/entity/exposures/crop_production.py:999 | the position of a country in the list holds that country |
| Countries.IndexOfUnique | climada_petals/entity/exposures/crop_production.py:999 | in a strictly increasing list, the position found is the only one |
| Countries.RegionTotalSnoc | climada_petals/entity/exposures/crop_production.py:703 | one more cell adds its NaN-free value to the total of its own country only |
| Countries.RegionTotal | climada_petals/entity/exposures/crop_production.py:703 | `value[region_id == id].sum()`; `RegionTotalSnoc` states it cell by cell |
| Countries.AggregateCountries | climada_petals/entity/exposures/crop_production.py:700-705 | the countries are the sorted distinct region ids, each total is the NaN-skipping sum over the cells of its country, and the totals sum to the exposure's total value |
| Countries.SumOfTotals | climada_petals/entity/exposures/crop_production.py:701-703 | the sum of the per-country totals is the sum over the countries |
| Countries.SumSkipNaNSnoc | climada_petals/entity/exposures/crop_production.py:703 | one more value adds its `nan_to_num` to the NaN-skipping sum |
| Countries.SumOverSnoc | climada_petals/entity/exposures/crop_production.py:701-703 | one more cell adds its value to the sum over the countries when its country is listed |
| Countries.TotalsConserved | climada_petals/entity/exposures/crop_production.py:700-705 | when every cell's country is listed once, the per-country totals add up to the total |
| Countries.SumOverEmpty | climada_petals/entity/exposures/crop_production.py:701-703 | without cells, the per-country totals add up to 0 |
| Countries.ScaledRegionTotal | climada_petals/entity/exposures/crop_production.py:1014-1017 | multiplying a country's cells by k multiplies its total by k |
| Countries.MaskedScaled | climada_petals/entity/exposures/crop_production.py:1014-1017 | multiplying a country's cells by k scales the country's selected values by k |
| Countries.ScaledCell | climada_petals/entity/exposures/crop_production.py:1014 | `nan_to_num` of a scaled cell is the scaled `nan_to_num` |
| Valuation.ValueToKcal | climada_petals/entity/exposures/crop_production.py:728-739 | a crop without a factor raises KeyError; otherwise every finite value is multiplied by the factor, NaN stays NaN, `tonnes_per_year` keeps the old values, the unit becomes 'kcal/y' and nothing else changes |
| Valuation.KcalInverse | climada_petals/entity/exposures/crop_production.py:732-736 | dividing a kcal value by the factor gives the tonnes kept beside it, and a country's kcal total is its tonnes total times the factor |
| Valuation.ScaledInverse | climada_petals/entity/exposures/crop_production.py:734-736 | scaling by a positive factor can be undone cell by cell and scales every country total |
| Valuation.Selected | climada_petals/entity/exposures/crop_production.py:808-822 | the selected FAO values are no more than the rows, empty exactly when no row matches the country, item and year range, and each comes from a matching row |
| Valuation.SelectedSnoc | climada_petals/entity/exposures/crop_production.py:808-822 | one more row adds its value at the end exactly when it matches: the selection is the matching rows' values, in table order |
| Valuation.CountryPrice | climada_petals/entity/exposures/crop_production.py:808-823 | the price is the NaN-aware mean of the country's selected values (`SelectedSnoc`) when some row matches the country, else the mean of all countries' matching values |
| Valuation.NoPriceIsNaN | climada_petals/entity/exposures/crop_production.py:819-823 | when no country has a matching row, the price is NaN |
| Valuation.UsdYears | climada_petals/entity/exposures/crop_production.py:769-776 | a missing year range is `YEARS_FAO`, a one-year range `(y,)` becomes `(y, y)`, and every other range is kept |
| Valuation.NoMissingRegion | climada_petals/entity/exposures/crop_production.py:793 | region id -99 becomes 0 and every other id is kept |
| Valuation.UsdConversionUnique | climada_petals/entity/exposures/crop_production.py:800-831 | the USD conversion is fully determined by its inputs |
| Valuation.ValueToUsd | climada_petals/entity/exposures/crop_production.py:741-831 | details below the table |
| Valuation.IsUsdConversion | climada_petals/entity/exposures/crop_production.py:741-831 | the USD conversion as a relation between input and result, given in the details of `ValueToUsd` |
| Valuation.UsdValue | climada_petals/entity/exposures/crop_production.py:741-831 | the value of `value_to_usd` as a function: it satisfies `IsUsdConversion`, so with `UsdConversionUnique` it is the one result `ValueToUsd` may return |
| Valuation.IsoCodes | climada_petals/entity/exposures/crop_production.py:794-795 | `iso3num`: one numeric ISO code per cell, `country_to_iso` (999 for an unknown country) of its region id with -99 read as 0 |
| Valuation.PriceCells | climada_petals/entity/exposures/crop_production.py:796-824 | the `area_price` column is the price column of the cells, or the lookup error exactly when a priced country exists and the crop or the year range is missing |
| Valuation.PriceCountries | climada_petals/entity/exposures/crop_production.py:801-824 | the loop over the sorted countries succeeds exactly when no priced country lacks the crop or the year range, and then every country's cells are priced |
| Valuation.NeedsPriceCountry | climada_petals/entity/exposures/crop_production.py:796-802 | every cell's code is among the sorted distinct codes, and some cell needs a price exactly when some listed code does |
| Valuation.PricedAll | climada_petals/entity/exposures/crop_production.py:800-824 | after all countries are priced, the array is the price column |
| Valuation.PriceCountry | climada_petals/entity/exposures/crop_production.py:802-824 | one more country's cells are priced, and the others are unchanged |
| Valuation.SetCountryCells | climada_petals/entity/exposures/crop_production.py:800-824 | `area_price[idx_country] = value[idx_country] * price` sets exactly the country's cells |
| Valuation.CountryUsdTotal | climada_petals/entity/exposures/crop_production.py:824 | a country's USD total is its tonnes total times its price |
| IsimipExposure.SliceBound | climada_petals/entity/exposures/crop_production.py:316 | a slice bound is clamped into the sequence and is itself when already inside |
| IsimipExposure.PySlice | climada_petals/entity/exposures/crop_production.py:316 | Python's `s[a:b]` is the Dafny slice for in-range bounds and empty when `b <= a` |
| IsimipExposure.TimeWindowYears | climada_petals/entity/exposures/crop_production.py:299-316 | the `time_idx` window of a series holds, in order, the years `y0 .. y1-1` of the year range; the end year is excluded |
| IsimipExposure.Finite | climada_petals/entity/exposures/crop_production.py:316 | the finite cells of a series are no more than its cells |
| IsimipExposure.FiniteEmpty | climada_petals/entity/exposures/crop_production.py:316 | a series has no finite cell exactly when all its cells are NaN |
| IsimipExposure.FiniteAll | climada_petals/entity/exposures/crop_production.py:316 | on a NaN-free series the finite cells are all the values |
| IsimipExposure.TimeMean | climada_petals/entity/exposures/crop_production.py:316 | `mean(dim='time')` skips NaN; it is NaN exactly when every cell is, and it is the plain mean of a NaN-free series |
| IsimipExposure.AreaCell | climada_petals/entity/exposures/crop_production.py:313-318 | one `area_crop` cell is the window's mean fraction times the cell area, and 0 when the mean is NaN |
| IsimipExposure.IrrTypes | climada_petals/entity/exposures/crop_production.py:307-310 | 'combined' expands to ['firr', 'noirr'] and any other type to [irr] |
| IsimipExposure.AreaCropLayer | climada_petals/entity/exposures/crop_production.py:313-318 | a layer exists exactly when the crop's landuse variable exists in the dataset; each cell is `AreaCell` of that variable |
| IsimipExposure.AreaCropMap | climada_petals/entity/exposures/crop_production.py:311-318 | `area_crop` succeeds exactly when every type's layer does; its keys are the types and each value is that type's layer |
| IsimipExposure.AreaCropPrefixFails | climada_petals/entity/exposures/crop_production.py:312-318 | once the loop has failed on a first part of the types, the whole loop fails with that error |
| IsimipExposure.FillAreaCrop | climada_petals/entity/exposures/crop_production.py:311-318 | the loop filling `area_crop` computes `AreaCropMap` |
| IsimipExposure.DirectoryMeans | climada_petals/entity/exposures/crop_production.py:336-344 | reading `hist_mean_<crop>-<irr>_<y0>-<y1>.hdf5` succeeds exactly when each type's file exists, and fails with a file error otherwise; each type's mean is its file's; the coordinates are those of the last type's file |
| IsimipExposure.ResolveHistMean | climada_petals/entity/exposures/crop_production.py:320-362 | details below the table |
| IsimipExposure.FirstMatchFrom | climada_petals/entity/exposures/crop_production.py:368-371 | the result is the first entry at or after `j` of `(lat_mean == la) & (lon_mean == lo)` that holds, as numpy broadcasts it, or None when no later entry holds |
| IsimipExposure.MeanIndex | climada_petals/entity/exposures/crop_production.py:365-373 | details below the table |
| IsimipExposure.AllMatched | climada_petals/entity/exposures/crop_production.py:368-371 | when every search finds a cell, every exposure cell has a match |
| IsimipExposure.IndexMean | climada_petals/entity/exposures/crop_production.py:365-373 | the loop filling the integer array `idx_mean` computes `MeanIndex` |
| IsimipExposure.TermLayer | climada_petals/entity/exposures/crop_production.py:377-382 | details below the table |
| IsimipExposure.Combined | climada_petals/entity/exposures/crop_production.py:377-383 | the combined value has one entry per exposure cell |
| IsimipExposure.CombinedSucceeds | climada_petals/entity/exposures/crop_production.py:377-383 | the value can be computed exactly when every type's term can |
| IsimipExposure.CombinedPrefixFails | climada_petals/entity/exposures/crop_production.py:380-383 | a failure on a first part of the types is the failure of the whole computation |
| IsimipExposure.CombinedStep | climada_petals/entity/exposures/crop_production.py:380-383 | one more type adds its term cell by cell |
| IsimipExposure.CombinedStepFails | climada_petals/entity/exposures/crop_production.py:381 | a type whose term fails ends the computation with that term's error |
| IsimipExposure.CombinedFirst | climada_petals/entity/exposures/crop_production.py:377-379 | the value after the first type is that type's term |
| IsimipExposure.CombinedTerms | climada_petals/entity/exposures/crop_production.py:307-383 | for 'combined', each cell is the full-irrigation term plus the rain-fed term; for another type it is that type's term; no cell is NaN |
| IsimipExposure.CombineIrrigation | climada_petals/entity/exposures/crop_production.py:377-383 | the fill of `gdf['value']` and its `+=` loop computes `Combined` |
| IsimipExposure.AddInPlace | climada_petals/entity/exposures/crop_production.py:383 | `value += value_tmp` adds the term to the column cell by cell, in place |
| IsimipExposure.RequestYears | climada_petals/entity/exposures/crop_production.py:232-233 | a given year range is kept; otherwise it is the chunk's default range, or the chunk lookup's KeyError |
| IsimipExposure.RequestCrop | climada_petals/entity/exposures/crop_production.py:291 | the crop's entry, or KeyError of the crop (of 'None' for a missing crop) |
| IsimipExposure.OpenLanduse | climada_petals/entity/exposures/crop_production.py:245-271 | the selected landuse file is opened when it exists, with its year chunk; a missing file raises a file error |
| IsimipExposure.CellValues | climada_petals/entity/exposures/crop_production.py:298-383 | the value column has one entry per dataset cell |
| IsimipExposure.FillValues | climada_petals/entity/exposures/crop_production.py:298-383 | the three loops computing the value column compute `CellValues` |
| IsimipExposure.IsimipTonnes | climada_petals/entity/exposures/crop_production.py:213-383 | details below the table |
| IsimipExposure.TonnesExposure | climada_petals/entity/exposures/crop_production.py:284-296 | the exposure has the dataset's cells, the given NaN-free values in 't/y', the crop, the description and the year range as reference year |
| IsimipExposure.FromIsimipNetcdf | climada_petals/entity/exposures/crop_production.py:163-394 | the result is the tonnes exposure, converted to USD with the FAO prices when the unit holds 'USD', else to kcal with dry-matter factors when it holds 'kcal', else kept; any error of the build is raised |
| IsimipExposure.IsNetcdfExposure | climada_petals/entity/exposures/crop_production.py:163-394 | what `from_isimip_netcdf` returns, as the row of `FromIsimipNetcdf` says |
| SeveralModels.ModelFiles | climada_petals/entity/exposures/crop_production.py:633-634 | the listed names are exactly the visible names holding 'nc' |
| SeveralModels.KeptMembers | climada_petals/entity/exposures/crop_production.py:638-650 | a name is kept exactly when it holds the climate model or the scenario that is given (either, when both are given) |
| SeveralModels.KeptAll | climada_petals/entity/exposures/crop_production.py:649-650 | with neither climate model nor scenario, every file is kept |
| SeveralModels.Kept | climada_petals/entity/exposures/crop_production.py:638-650 | the kept names, in order, are no more than the files and each passes the filter; `KeptMembers` gives the converse |
| SeveralModels.SubsetFiles | climada_petals/entity/exposures/crop_production.py:638-650 | the subset loop keeps the names `Kept` describes, in order |
| SeveralModels.SubsetAsWritten | climada_petals/entity/exposures/crop_production.py:639-648 | as written, the filter fails on the first file whenever a climate model or a scenario is given |
| SeveralModels.SubsetAsWrittenRejectsModel | climada_petals/entity/exposures/crop_production.py:639-648 | the filter as written fails on ['gfdl.nc'] with climate model 'gfdl', where the intended filter keeps that file |
| SeveralModels.Broadcast | climada_petals/entity/exposures/crop_production.py:659-669 | `combined_exp[:, j] = value` succeeds exactly for a column of n values or one value; a single value is repeated over every row; other lengths raise ValueError |
| SeveralModels.Columns | climada_petals/entity/exposures/crop_production.py:659-669 | every column written has n rows |
| SeveralModels.ColumnsSucceed | climada_petals/entity/exposures/crop_production.py:659-669 | all columns can be written exactly when every exposure has n values or one value |
| SeveralModels.ColumnsExact | climada_petals/entity/exposures/crop_production.py:659-669 | when every exposure has n values, the columns are their values |
| SeveralModels.MeanColumnCell | climada_petals/entity/exposures/crop_production.py:671 | a row mean is finite exactly when there is a column and every column's cell is finite; it is then the mean of the row |
| SeveralModels.MeanColumn | climada_petals/entity/exposures/crop_production.py:671 | `np.mean(combined_exp, 1)`: one NaN-aware mean per row, described cell by cell by `MeanColumnCell` |
| SeveralModels.MeanOfOne | climada_petals/entity/exposures/crop_production.py:654-671 | with a single NaN-free file, the mean is that file's value |
| SeveralModels.MeanOrderFree | climada_petals/entity/exposures/crop_production.py:671 | the row means do not depend on the order of the files |
| SeveralModels.RowPermutation | climada_petals/entity/exposures/crop_production.py:671 | permuting the columns permutes each row |
| SeveralModels.CombineOutcome | climada_petals/entity/exposures/crop_production.py:659-674 | the combination succeeds exactly when every exposure has the first one's number of cells or one cell and the last one has the first one's number; every failure is ValueError, the one of line 671 reading 'Length of values (n) does not match length of index (m)'; on success it is the last exposure with one row mean per cell as value |
| SeveralModels.Combine | climada_petals/entity/exposures/crop_production.py:659-674 | the combination of the exposures, whose outcome `CombineOutcome` states |
| SeveralModels.CombineSameCells | climada_petals/entity/exposures/crop_production.py:671 | for exposures on the same cells, the mean value does not depend on the order of the files |
| SeveralModels.ValueColumnsPermutation | climada_petals/entity/exposures/crop_production.py:659-669 | permuting the exposures permutes their value columns |
| SeveralModels.RanAt | climada_petals/entity/exposures/crop_production.py:654-668 | call `j` of `from_isimip_netcdf` was made for file `j` |
| SeveralModels.CallFile | climada_petals/entity/exposures/crop_production.py:654-668 | the next call of `from_isimip_netcdf` is made for the next file |
| SeveralModels.FileRequest | climada_petals/entity/exposures/crop_production.py:654-668 | the arguments of each `from_isimip_netcdf` call: the file as `filename`, `hist_mean`, the defaulted year range, no scenario and no climate model, the crop and irrigation type, the defaulted version and unit, and the defaulted `fn_str_var` only on the first call |
| SeveralModels.FromMeanOfSeveralModels | climada_petals/entity/exposures/crop_production.py:571-674 | the defaulted year range's KeyError, or IndexError with no kept file; otherwise one call per kept file in order, stopping at the first failure, and the result is that failure or `Combine` of the exposures, including its ValueError when the last exposure's length differs from the first one's; every exposure before the last one read fit its column, and calls that all succeed stop before the last file only when the last exposure read does not fit |
| SeveralModels.MeanOverFiles | climada_petals/entity/exposures/crop_production.py:654-674 | one call per file in order, up to the first that fails or does not fit its column: every earlier exposure fit its column, and a run of successful calls stops before the last file only at an exposure that does not fit; the result is that error or `Combine` of the exposures: the last exposure with the row means, or ValueError when its length is not the first one's |
| SeveralModels.FromFirst | climada_petals/entity/exposures/crop_production.py:659-674 | with the first exposure read, `combined_exp` is allocated and filled in column 0, and the loop ends in the outcome `MeanOutcome` describes: every exposure before the last one read fit its column, and the calls stop early only at a failing call or an exposure that does not fit |
| SeveralModels.NewCombined | climada_petals/entity/exposures/crop_production.py:659-660 | `combined_exp`: a fresh array of one row per cell of the first exposure and one column per file, holding the first exposure in column 0 |
| SeveralModels.FillColumns | climada_petals/entity/exposures/crop_production.py:664-671 | the loop over the remaining files keeps the calls, the columns and the filled array in step; it ends with the outcome `MeanOutcome` describes: every exposure before the last one read fit its column, and the calls stop early only at a failing call or an exposure that does not fit |
| SeveralModels.Advance | climada_petals/entity/exposures/crop_production.py:664-669 | one call for the next file: it fails only when the call fails or its exposure does not fit the column, and that error ends the function; otherwise one more result and one more column, filled in the array |
| SeveralModels.Averaged | climada_petals/entity/exposures/crop_production.py:671-674 | after the last file, the row means of the array on the last exposure, or ValueError when the last exposure's length is not the number of rows |
| SeveralModels.FirstColumn | climada_petals/entity/exposures/crop_production.py:659-660 | the first exposure's value is the first column |
| SeveralModels.CallFailed | climada_petals/entity/exposures/crop_production.py:665-668 | after exposures that all fit their columns, a failing call ends the whole function with its error |
| SeveralModels.FirstCallFailed | climada_petals/entity/exposures/crop_production.py:654-658 | a failing first call ends the whole function with its error |
| SeveralModels.FitFailed | climada_petals/entity/exposures/crop_production.py:669 | a value that does not fit its column ends the whole function with ValueError |
| SeveralModels.FitStep | climada_petals/entity/exposures/crop_production.py:664-669 | a fitting value adds one column and one result |
| SeveralModels.RowsMean | climada_petals/entity/exposures/crop_production.py:671 | `np.mean(combined_exp, 1)` over the filled array is the row means of the columns |
| SeveralModels.Finished | climada_petals/entity/exposures/crop_production.py:671-674 | after all files, the result is the last exposure with the row means, or the ValueError of line 671 when the last exposure's length is not the first one's |
| SeveralModels.ColumnsSnoc | climada_petals/entity/exposures/crop_production.py:664-669 | writing one more column extends the columns, or fails with the broadcast error |
| SeveralModels.FillColumn | climada_petals/entity/exposures/crop_production.py:659-669 | writing column j fills it and leaves the earlier columns unchanged |
| SeveralModels.RowMeans | climada_petals/entity/exposures/crop_production.py:671 | each row's result is the NaN-aware mean of that row of the array |
| Normalization.FaoProduction | climada_petals/entity/exposures/crop_production.py:1000-1004 | the FAO production is NaN when no row matches the country, crop and years; it is finite exactly when some row matches and no matching value is NaN, and then it times the count of matching rows is their sum |
| Normalization.FaoYears | climada_petals/entity/exposures/crop_production.py:969-970 | `yearrange`, or `YEARS_FAO` when it is missing; the FAO rows of a country are then selected between its first two entries (1000-1002) |
| Normalization.RatioAsWritten | climada_petals/entity/exposures/crop_production.py:1009-1012 | the ratio as written: 1 for a country without exposure production; otherwise NaN exactly when the FAO production is NaN |
| Normalization.RatioAsWrittenWithoutFaoRows | climada_petals/entity/exposures/crop_production.py:1003-1017 | for a country with production but without FAO rows, the ratio as written is NaN and makes every normalized cell NaN, where the intended ratio is 1 |
| Normalization.Ratio | climada_petals/entity/exposures/crop_production.py:994-1012 | the ratio stays 1 without exposure production or without FAO production; otherwise the ratio times the exposure total is the FAO production, and it agrees with the ratio as written wherever that is finite |
| Normalization.ResetToTonnes | climada_petals/entity/exposures/crop_production.py:975-978 | resetting to tonnes keeps the cells and the crop, and raises AttributeError without `tonnes_per_year` |
| Normalization.ResetUndoesKcal | climada_petals/entity/exposures/crop_production.py:975-978 | resetting a kcal exposure to tonnes gives back the original values |
| Normalization.ResetUndoesUsd | climada_petals/entity/exposures/crop_production.py:975-978 | resetting a USD exposure to tonnes gives back the original values |
| Normalization.NormalizeWithFao | climada_petals/entity/exposures/crop_production.py:917-1035 | both exposures are reset to tonnes (or the reset's error is raised), normalized as `Normalization` describes, then converted once to the defaulted unit with `Restored` (or that conversion's error is raised) |
| Normalization.NormalizeCountries | climada_petals/entity/exposures/crop_production.py:980-1017 | the aggregation and the country loop compute `Normalization`; the conversions of 1019-1027 are `Restored`, applied once after the loop (Findings, third row) |
| Normalization.Normalization | climada_petals/entity/exposures/crop_production.py:980-1030 | sorted distinct countries; per country the FAO production, the ratio and the exposure production; both exposures with every cell times its country's ratio; the result is well formed |
| Normalization.UnitConversion | climada_petals/entity/exposures/crop_production.py:1019-1027 | one exposure converted to USD with the FAO prices when the unit argument or its own unit is 'USD/y', else to kcal with the biomass factors when either names kcal, else kept; a converted exposure keeps its tonnes in `tonnes_per_year` and its cells |
| Normalization.Restored | climada_petals/entity/exposures/crop_production.py:1019-1027 | the normalized exposures converted once, rain-fed first: the countries, ratios and productions are kept, a converted exposure keeps its normalized tonnes, and nothing changes when neither converts |
| Normalization.CellsInCountries | climada_petals/entity/exposures/crop_production.py:980-999 | every cell's country is listed, and the list is empty exactly when there are no cells |
| Normalization.CountryLoop | climada_petals/entity/exposures/crop_production.py:999-1017 | the loop fails exactly when there is a country and the crop's FAO name or the year range is missing; otherwise it ends in the state after all countries |
| Normalization.NormalizeCountry | climada_petals/entity/exposures/crop_production.py:1000-1017 | one iteration turns the state after c countries into the state after c + 1 |
| Normalization.AfterNone | climada_petals/entity/exposures/crop_production.py:993-996 | the state before the loop is zeros, ones, the exposure totals and the unscaled values |
| Normalization.AfterStep | climada_petals/entity/exposures/crop_production.py:1003-1017 | updating country c's FAO production, ratio, total and cells gives the state after c + 1 countries |
| Normalization.AfterAll | climada_petals/entity/exposures/crop_production.py:999-1030 | the state after all countries, with " normalized" appended to the descriptions, is the normalization |
| Normalization.TotalColumnIs | climada_petals/entity/exposures/crop_production.py:980-983 | `exp_tot_production` is the sum of the two countries' totals |
| Normalization.RescaleNone | climada_petals/entity/exposures/crop_production.py:995-996 | before the loop, the normalized values are the originals |
| Normalization.RescaleStep | climada_petals/entity/exposures/crop_production.py:1014-1017 | multiplying country c's cells by its ratio extends the rescale by one country |
| Normalization.Rescale | climada_petals/entity/exposures/crop_production.py:1014-1017 | the cells of the first c countries times their country's ratio; `RescaleNone` and `RescaleStep` state it before and along the loop |
| Normalization.SetCells | climada_petals/entity/exposures/crop_production.py:1014-1017 | `value[region_id == country] = ratio * value[region_id == country]` on a copy; its use is stated by `AfterStep` |
| Normalization.NormalizedMatchesFao | climada_petals/entity/exposures/crop_production.py:1011-1017 | for a country with exposure production and non-zero FAO production, the normalized full-irrigation and rain-fed totals add up to the FAO production |
| Normalization.ScaledCountry | climada_petals/entity/exposures/crop_production.py:1014-1017 | scaling both exposures' cells of a country by k, with k times their total equal to p, makes their totals add up to p |
| Normalization.ScaledPair | climada_petals/entity/exposures/crop_production.py:1014-1017 | scaling both exposures' cells of a country by k scales their combined total by k |
| Normalization.ZeroProductionKept | climada_petals/entity/exposures/crop_production.py:1009-1017 | a country without exposure production keeps ratio 1, takes the FAO production as its total, and keeps its cells |
| Normalization.WrittenStep | climada_petals/entity/exposures/crop_production.py:1014-1027 | one country of the loop as written: that country's cells are the ratio times the values the exposures hold now, the others unchanged; then both exposures the loop reads are converted, and the step fails exactly when a conversion does |
| Normalization.WrittenAfter | climada_petals/entity/exposures/crop_production.py:999-1027 | the loop as written after c countries; every state it reaches is well formed |
| Normalization.NormalizedAsWritten | climada_petals/entity/exposures/crop_production.py:980-1027 | `normalize_with_fao_cp` as written, with the conversions of 1019-1027 inside the country loop; the ratio is the corrected one, so that only the conversions differ |
| Normalization.KcalRatio | climada_petals/entity/exposures/crop_production.py:1003-1012 | the two ratios of either exhibit pair, both non-zero |
| Normalization.SecondStep | climada_petals/entity/exposures/crop_production.py:1014-1027 | on either exhibit pair, with the unit argument 't/y' or 'kcal/y', the second country is rescaled from its value already converted to kcal |
| Normalization.KcalConverted | climada_petals/entity/exposures/crop_production.py:1019-1027 | converting normalized maize exposures once, when the unit argument or their unit names kcal, multiplies each cell by 3 560 000, under the unit 'kcal/y' |
| Normalization.InLoopConversionMixesUnits | climada_petals/entity/exposures/crop_production.py:999-1027 | for the kcal maize pair, as written the first cell stays tonnes and the second is kcal, under the unit 'kcal/y'; converted once after the loop, both are kcal; the two results differ |
| Normalization.InLoopConversionMixesTonnes | climada_petals/entity/exposures/crop_production.py:975-1027 | for the maize pair in 't/y' with unit 'kcal/y', where no reset happens: as written the first cell stays tonnes and the second is kcal, under the unit 't/y'; converted once after the loop, both are kcal under 'kcal/y'; the two results differ |
| Normalization.ExhibitWritten | climada_petals/entity/exposures/crop_production.py:1014-1027 | on either exhibit pair, for any two ratios, the loop as written leaves the first cell at its ratio and the second at its ratio times the kcal factor |
| Normalization.ToKcal | climada_petals/entity/exposures/crop_production.py:1019-1027 | when the unit argument and the exposure's unit are each 't/y' or 'kcal/y' and one names kcal, the conversion is `set_value_to_kcal(biomass=True)` |
| ExposureSets.VisibleFiles | climada_petals/entity/exposures/crop_production.py:890-891 | the listed names are exactly the names not starting with '.' |
| ExposureSets.FirrFiles | climada_petals/entity/exposures/crop_production.py:1092-1094 | `filenames_firr` is exactly the visible names holding 'firr' |
| ExposureSets.SetFileRequest | climada_petals/entity/exposures/crop_production.py:903-907 | each file's call passes the historical-mean directory, the year range, crop, irr, the defaulted version and unit, and nothing for scenario, climate model and file-name part |
| ExposureSets.ForFile | climada_petals/entity/exposures/crop_production.py:901-909 | a name that does not parse raises ValueError; otherwise the file's exposure, or its error, with the name it is written under |
| ExposureSets.NextFile | climada_petals/entity/exposures/crop_production.py:900-911 | the exposure of the next file extends the files written, or is the error of that file |
| ExposureSets.WroteSnoc | climada_petals/entity/exposures/crop_production.py:910-911 | one more written file extends the written list in order |
| ExposureSets.WroteAt | climada_petals/entity/exposures/crop_production.py:900-911 | written file k is the exposure of the k-th historical-mean file |
| ExposureSets.InitFullExpSet | climada_petals/entity/exposures/crop_production.py:833-915 | the defaulted year range's KeyError before any file; otherwise one exposure per visible historical-mean file, in order, up to the first error |
| ExposureSets.CropIrrFree | climada_petals/entity/exposures/crop_production.py:901-902 | the crop and irrigation type parsed from a name hold neither '_' nor '-' |
| ExposureSets.WrittenNamesParse | climada_petals/entity/exposures/crop_production.py:1092-1110 | every written name reads back, the way `normalize_several_exp` parses it, as its crop and years; its derived rain-fed partner is the 'noirr' name; a full-irrigation name passes the 'firr' filter |
| ExposureSets.FileOutcomeName | climada_petals/entity/exposures/crop_production.py:908-909 | a written file is named after the crop and irrigation type of its historical-mean file |
| ExposureSets.NameParses | climada_petals/entity/exposures/crop_production.py:1105-1109 | an exposure name built from a historical-mean name parses back into its crop and years, and its rain-fed partner is the 'noirr' name |
| ExposureSets.FirrNameContains | climada_petals/entity/exposures/crop_production.py:1092-1094 | a full-irrigation exposure name holds 'firr' |
| ExposureSets.NormalizedAt | climada_petals/entity/exposures/crop_production.py:1104-1127 | normalized pair k is the outcome of the k-th full-irrigation file |
| ExposureSets.ForPair | climada_petals/entity/exposures/crop_production.py:1105-1121 | details below the table |
| ExposureSets.PairOutcome | climada_petals/entity/exposures/crop_production.py:1105-1121 | the outcome of one full-irrigation file: ValueError for a name that does not parse, a file error for a missing rain-fed partner, otherwise the crop with `IsNormalization` of the pair with the defaulted unit and years |
| ExposureSets.NormalizeSeveral | climada_petals/entity/exposures/crop_production.py:1037-1132 | one normalization per full-irrigation file, in listing order, each with its crop, up to the first error |
| ExposureSets.NormalizedSnoc | climada_petals/entity/exposures/crop_production.py:1123-1127 | one more normalized pair extends the lists in order |
| ExposureSets.NormalizedCrops | climada_petals/entity/exposures/crop_production.py:1105-1123 | each listed crop is the crop parsed from its file's name, and that file's rain-fed partner exists |

The rows marked "details below the table" state the following.

- **Valuation.ValueToUsd**
  - It fails exactly when some cell needs a price and the crop has no FAO name (KeyError) or the year range is empty (IndexError).
  - Otherwise:
    - code 0 cells get 0;
    - code 999 cells get value × 0;
    - every other cell gets value × its country's price;
    - `tonnes_per_year` keeps the old values;
    - region id -99 becomes 0;
    - the unit becomes 'USD/y';
    - nothing else changes.
- **IsimipExposure.ResolveHistMean**
  - A dict needs 'firr' or 'noirr', and fails with ValueError otherwise.
  - An array is the means of the first type.
  - A directory gives `DirectoryMeans`.
  - A single file fails with ValueError for 'combined'.
  - Any other value raises ValueError.
- **IsimipExposure.MeanIndex**
  - With equal grid lengths, `idx_mean` is the identity.
  - Otherwise each entry is the first historical-mean cell with equal latitude and longitude.
  - The comparison broadcasts as numpy does: a coordinate array of one entry stands for every cell.
  - When there is an exposure cell and `lat_mean` and `lon_mean` cannot be broadcast together, it raises ValueError.
  - Otherwise a cell without a match raises IndexError.
- **IsimipExposure.TermLayer**
  - A term `nan_to_num(area * hist_mean[idx_mean])` fails with KeyError for a missing type and with IndexError for an index outside the means.
  - Otherwise each cell is 0 for a NaN mean and area × mean for a finite one.
- **IsimipExposure.IsimipTonnes**
  - A missing chunk fails when there is no year range.
  - On success the exposure is well formed, NaN-free and in 't/y', without `tonnes_per_year`, with the requested crop, the defaulted year range as reference year and the description built from them.
  - Its cells are the landuse dataset's cells: latitude, longitude and region ids.
  - Its values are `CellValues` of that dataset.
- **ExposureSets.ForPair**
  - A name without four fields, or one whose crop field does not split, raises ValueError.
  - A missing rain-fed partner raises a file error.
  - Otherwise the result is the crop with the pair's normalization, or that normalization's error.

## Left out

- File and dataset I/O are inputs of the model:
  - `xr.open_dataset`;
  - the h5py reads of historical means;
  - `pd.read_csv` of the FAO files;
  - `from_hdf5`;
  - the directory listings of `iterdir`.

  Files are absent or present by name; they are not opened.
- The writes are modelled only by the list they produce. `ExposureSets.InitFullExpSet` returns, in order, the pairs (name, exposure) it would write: names are `filename_list` and exposures are `output_list`. The `mkdir` of the target directory and `write_hdf5` are not modelled.
- Foreign calls are inputs or parameters:
  - `get_country_code` (the dataset's region ids);
  - `get_gridcellarea` (the dataset's cell areas);
  - the ISO/FAO code conversions;
  - `Exposures.check`.
- The bounding-box cut (`data_set.sel(...)`) is left out: every dataset is already cut.
- `IsimipExposure.FromIsimipNetcdf` does not model resetting `input_dir` from a `Path` filename (237-241). It does not model the mutable `hist_mean` path conversion either (222-223).
- `return_data` of `init_full_exp_set_isimip`, `normalize_with_fao_cp` and `normalize_several_exp` only decides which lists are returned. The model always returns all of them.
- `Normalization.NormalizeWithFao` converts the normalized exposures once, after the country loop. The source converts inside the loop (Findings, third row). The as-written loop is modelled by `WrittenAfter` and `NormalizedAsWritten`. Its property is stated on two exhibits, not for all inputs: the kcal pair of `InLoopConversionMixesUnits` and the tonnes pair of `InLoopConversionMixesTonnes`.
- `Normalization.NormalizeWithFao` requires both exposures to lie on the same cells. The source indexes the rain-fed exposure by the full-irrigation region ids and assumes the same. `ExposureSets.NormalizeSeveral` asks the same of each pair (`PairsAligned`).
- The exposures are values in the model. The source updates several things in place: the `GeoDataFrame` columns, the numpy arrays of `combined_exp`, `area_price` and `idx_mean`, and the reset to tonnes at 975-978, which mutates the inputs of `normalize_with_fao_cp`. The methods update arrays where the source updates an array (`IndexMean`, `AddInPlace`, `PriceCountries`, `FillColumn`), but aliasing between a caller's exposure and the function's copy is not modelled.
- `IsimipExposure.ResolveHistMean` follows the branches on the type of `hist_mean`. It does not model the truthiness test `if not hist_mean` of `from_mean_of_several_isimip_models` (624-625) on arrays; a missing `hist_mean` there is the default directory.
- `SeveralModels.MeanOverFiles` does not model the column `exp.gdf['crop'] = crop` (672): the crop of the last exposure is already the requested crop.
- The deprecated `set_*` wrappers and `semilogplot_ratio` are left out: they only reassign `__dict__` or plot. So are `from_area_and_yield_nc4` and `from_spam_ray_mirca`: they read other data sets and are not part of this model.
- Floating point is left out: values are exact reals, and NaN is explicit. `mean(dim='time')` skips NaN as xarray does, while `np.mean` propagates it.
- `IsimipExposure.TimeWindowYears` states the window as the source computes it. The slice `[time_idx[0]:time_idx[1]]` holds the years y0 to y1 - 1, so the end year of the range is excluded.
- `Normalization.NormalizeWithFao` uses the corrected ratio `Ratio`. The ratio as written at 1011 is `RatioAsWritten` (Findings, first row).
- Strings.ParseInt: does not accept the '_' digit separators or the non-ASCII digits and whitespace that Python's `int()` also accepts. The year fields it parses come from a split on '_'.
- Normalization.ResetToTonnes: assumes that the attribute `tonnes_per_year` read at 976 and 978 is the `gdf['tonnes_per_year']` column that `value_to_kcal` (732) and `value_to_usd` (827) write. The `Exposures` class is not part of this model. Without that column the lookup is modelled as AttributeError. The exhibit of `InLoopConversionMixesTonnes` does not depend on this assumption.

## Findings

| source | as written | input that shows it | evidently intended | confidence | as-written member | corrected member |
|---|---|---|---|---|---|---|
| climada_petals/entity/exposures/crop_production.py:1003-1012 | `len(idx) >= 1` holds for every `np.where` tuple, and `x != np.nan` is always true. So a country without FAO rows gets production `mean([]) = NaN`, and its ratio becomes `NaN / total`. | a country with exposure production 5.0 and no FAO row for the crop and years | the ratio stays 1 when FAO has no value, as the comments at 1006-1008 say for the zero case | high (not executed) | Normalization.RatioAsWrittenWithoutFaoRows | Normalization.Ratio |
| climada_petals/entity/exposures/crop_production.py:639-648 | `cl_model in name` tests a string against a `PosixPath` from `iterdir`, which raises TypeError as soon as a climate model or scenario is given | files ['gfdl.nc'] with cl_model 'gfdl' | a substring test on the file's name, which keeps 'gfdl.nc' | high (not executed) | SeveralModels.SubsetAsWrittenRejectsModel | SeveralModels.KeptMembers |
| climada_petals/entity/exposures/crop_production.py:1019-1027 | the conversions run inside the country loop on `exp_firr` and `exp_noirr`, the exposures the loop reads. So each later country is rescaled from values already converted, and the normalized copies are never converted, while their unit already reads 'kcal/y' | a maize pair in 'kcal/y', one cell in country 1 and one in country 2, default unit; also the same pair in 't/y' with unit 'kcal/y', which needs no reset to tonnes | the normalized exposures converted once, back to the unit they came in, as the comment at 971-974 says | high (not executed) | Normalization.InLoopConversionMixesUnits, Normalization.InLoopConversionMixesTonnes | Normalization.Restored |
