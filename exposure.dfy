/** A crop-production exposure: one row per grid cell of the exposure's
    GeoDataFrame, plus the attributes `CropProduction` adds to `Exposures`. */
module Exposure {
  import opened Wrappers
  import opened Numeric

  /** `value` is the production per cell in `valueUnit`; `tonnesPerYear` is the
      `tonnes_per_year` column, present once a unit conversion has kept the
      production in tonnes beside the converted value. */
  datatype CropExposure = CropExposure(
    lat: seq<real>,
    lon: seq<real>,
    regionId: seq<int>,
    value: seq<Num>,
    tonnesPerYear: Option<seq<Num>>,
    crop: string,
    valueUnit: string,
    description: string,
    refYear: (int, int))

  /** All columns have one entry per grid cell. */
  ghost predicate WellFormed(e: CropExposure)
  {
    |e.lon| == |e.lat| && |e.regionId| == |e.lat| && |e.value| == |e.lat|
    && (e.tonnesPerYear.Some? ==> |e.tonnesPerYear.value| == |e.lat|)
  }
}
