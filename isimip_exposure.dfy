/** `CropProduction.from_isimip_netcdf`: a crop-production exposure from an ISIMIP
    landuse dataset (harvested area fractions) and historical mean yields. */
module IsimipExposure {
  import opened Wrappers
  import opened Numeric
  import opened Strings
  import opened Parameters
  import opened Filenames
  import opened Exposure
  import opened Valuation

  /** The part of one opened landuse dataset the exposure reads, already cut to
      the bounding box and flattened to grid cells: coordinates, the country of
      each cell (`get_country_code`), the area of each cell (`get_gridcellarea`)
      and the area-fraction variables, each a time series per cell. */
  datatype Landuse = Landuse(lat: seq<real>, lon: seq<real>, regionId: seq<int>, area: seq<real>,
                             fractions: map<string, seq<seq<Num>>>)

  ghost predicate LanduseWellFormed(d: Landuse)
  {
    |d.lon| == |d.lat| && |d.regionId| == |d.lat| && |d.area| == |d.lat|
    && forall v :: v in d.fractions ==> |d.fractions[v]| == |d.lat|
  }

  // ---------------------------------------------------------------- time window

  function SliceBound(n: nat, i: int): (b: nat)
    ensures b <= n
    ensures 0 <= i <= n ==> b == i
  {
    if i < 0 then (if n + i < 0 then 0 else n + i) else if i > n then n else i
  }

  /** Python's `s[a:b]`: negative bounds count from the end, bounds are clamped to
      the sequence, and a window whose start lies past its end is empty. */
  function PySlice<T>(s: seq<T>, a: int, b: int): (r: seq<T>)
    ensures |r| <= |s|
    ensures 0 <= a <= b <= |s| ==> r == s[a..b]
    ensures 0 <= b <= a ==> r == []
  {
    var lo, hi := SliceBound(|s|, a), SliceBound(|s|, b);
    if lo <= hi then s[lo..hi] else []
  }

  /** The time window `[time_idx[0]:time_idx[1]]` of a series starting in the
      chunk's first year holds the years yearrange[0] to yearrange[1] - 1: the
      end year of the range is not part of the mean. */
  lemma TimeWindowYears<T>(series: seq<T>, yearrange: (int, int), chunk: YearChunk)
    requires chunk.startyear <= yearrange.0 <= yearrange.1 <= chunk.startyear + |series|
    ensures var t := TimeIdx(yearrange, chunk);
            var w := PySlice(series, t.0, t.1);
            |w| == yearrange.1 - yearrange.0
            && forall k :: 0 <= k < |w| ==> w[k] == series[yearrange.0 - chunk.startyear + k]
  {
  }

  /** The finite cells of a series, in order. */
  function Finite(s: seq<Num>): (r: seq<real>)
    ensures |r| <= |s|
  {
    if |s| == 0 then [] else (if s[0].Fin? then [s[0].r] else []) + Finite(s[1..])
  }

  /** A series has no finite cell exactly when all its cells are NaN. */
  lemma {:induction false} FiniteEmpty(s: seq<Num>)
    ensures |Finite(s)| == 0 <==> forall k :: 0 <= k < |s| ==> s[k].NaN?
    decreases |s|
  {
    if |s| > 0 {
      FiniteEmpty(s[1..]);
      assert forall k :: 1 <= k < |s| ==> s[k] == s[1..][k - 1];
    }
  }

  /** On a series without NaN the finite cells are all the values. */
  lemma {:induction false} FiniteAll(s: seq<Num>)
    ensures AllFinite(s) ==> Finite(s) == Values(s)
    decreases |s|
  {
    if |s| > 0 && AllFinite(s) {
      FiniteAll(s[1..]);
      assert Values(s) == [s[0].r] + Values(s[1..]);
    }
  }

  /** xarray's `mean(dim='time')`: NaN cells are skipped and the mean is NaN only
      when every cell is NaN; on a series without NaN it is `np.mean`. */
  function TimeMean(series: seq<Num>): (m: Num)
    ensures m.NaN? <==> forall k :: 0 <= k < |series| ==> series[k].NaN?
    ensures AllFinite(series) ==> m == MeanOfNums(series)
  {
    FiniteEmpty(series);
    FiniteAll(series);
    MeanOf(Finite(series))
  }

  /** One cell of `area_crop[irr]`: the mean fraction over the time window times
      the cell area, 0 when the window holds no finite fraction. */
  function AreaCell(series: seq<Num>, t: (int, int), area: real): (v: real)
    ensures TimeMean(PySlice(series, t.0, t.1)).NaN? ==> v == 0.0
    ensures TimeMean(PySlice(series, t.0, t.1)).Fin? ==> v == TimeMean(PySlice(series, t.0, t.1)).r * area
  {
    NanToNum(Times(TimeMean(PySlice(series, t.0, t.1)), Fin(area)))
  }

  // ---------------------------------------------------------------- irrigation types

  /** `irr_types`: 'combined' stands for full irrigation plus rainfed. */
  function IrrTypes(irr: string): (r: seq<string>)
    ensures |r| >= 1 && r[0] == (if irr == "combined" then "firr" else irr)
    ensures irr == "combined" ==> r == ["firr", "noirr"]
    ensures irr != "combined" ==> r == [irr]
  {
    if irr == "combined" then ["firr", "noirr"] else [irr]
  }

  /** `area_crop[irr]` of one irrigation type. The variable is named after the crop
      and the irrigation type (KeyError for an unknown one) and must exist in the
      dataset (AttributeError otherwise). */
  function AreaCropLayer(d: Landuse, crop: string, irr: string, t: (int, int)): (r: Outcome<seq<real>>)
    requires LanduseWellFormed(d)
    ensures r.Success? <==> LanduseVariable(crop, irr).Success? && LanduseVariable(crop, irr).value in d.fractions
    ensures r.Success? ==>
              |r.value| == |d.lat|
              && forall i :: 0 <= i < |d.lat| ==>
                   r.value[i] == AreaCell(d.fractions[LanduseVariable(crop, irr).value][i], t, d.area[i])
  {
    var name :- LanduseVariable(crop, irr);
    if name !in d.fractions then Failure(AttributeError(name))
    else Success(seq(|d.lat|, i requires 0 <= i < |d.lat| => AreaCell(d.fractions[name][i], t, d.area[i])))
  }

  /** The `area_crop` dict after the loop over `irr_types`: one layer per type, or
      the error of the first type whose layer cannot be computed. */
  function AreaCropMap(d: Landuse, crop: string, irrTypes: seq<string>, t: (int, int))
    : (r: Outcome<map<string, seq<real>>>)
    requires LanduseWellFormed(d)
    ensures r.Success? <==> forall x :: x in irrTypes ==> AreaCropLayer(d, crop, x, t).Success?
    ensures r.Success? ==> r.value.Keys == set x | x in irrTypes
    ensures r.Success? ==> forall x :: x in irrTypes ==> AreaCropLayer(d, crop, x, t) == Success(r.value[x])
    decreases |irrTypes|
  {
    if |irrTypes| == 0 then Success(map[])
    else
      var n := |irrTypes| - 1;
      assert irrTypes == irrTypes[..n] + [irrTypes[n]];
      var m :- AreaCropMap(d, crop, irrTypes[..n], t);
      var layer :- AreaCropLayer(d, crop, irrTypes[n], t);
      Success(m[irrTypes[n] := layer])
  }

  lemma {:induction false} AreaCropPrefixFails(d: Landuse, crop: string, irrTypes: seq<string>, k: nat, t: (int, int))
    requires LanduseWellFormed(d) && k <= |irrTypes|
    requires AreaCropMap(d, crop, irrTypes[..k], t).Failure?
    ensures AreaCropMap(d, crop, irrTypes, t) == AreaCropMap(d, crop, irrTypes[..k], t)
    decreases |irrTypes| - k
  {
    if k == |irrTypes| {
      assert irrTypes[..k] == irrTypes;
    } else {
      assert irrTypes[..k + 1][..k] == irrTypes[..k];
      AreaCropPrefixFails(d, crop, irrTypes, k + 1, t);
    }
  }

  /** The loop filling `area_crop`, one irrigation type after the other. */
  method FillAreaCrop(d: Landuse, crop: string, irrTypes: seq<string>, t: (int, int))
    returns (r: Outcome<map<string, seq<real>>>)
    requires LanduseWellFormed(d)
    ensures r == AreaCropMap(d, crop, irrTypes, t)
  {
    var areaCrop: map<string, seq<real>> := map[];
    for k := 0 to |irrTypes|
      invariant AreaCropMap(d, crop, irrTypes[..k], t) == Success(areaCrop)
    {
      assert irrTypes[..k + 1][..k] == irrTypes[..k];
      var layer := AreaCropLayer(d, crop, irrTypes[k], t);
      if layer.Failure? {
        AreaCropPrefixFails(d, crop, irrTypes, k + 1, t);
        return Failure(layer.error);
      }
      areaCrop := areaCrop[irrTypes[k] := layer.value];
    }
    assert irrTypes[..|irrTypes|] == irrTypes;
    return Success(areaCrop);
  }

  // ---------------------------------------------------------------- historical mean

  /** A historical-mean file: the mean yield per cell and the cells' coordinates. */
  datatype HistMeanFile = HistMeanFile(mean: seq<Num>, lat: seq<real>, lon: seq<real>)

  /** The forms `hist_mean` takes: a dict of arrays per irrigation type, one array,
      a directory of historical-mean files by file name (the default), a single
      file, or a path that is neither a directory nor a file. */
  datatype HistMean =
    | MeanDict(entries: map<string, seq<Num>>)
    | MeanArray(values: seq<Num>)
    | MeanDirectory(files: map<string, HistMeanFile>)
    | MeanFile(file: HistMeanFile)
    | MeanNotFound(path: string)

  ghost predicate HistMeanWellFormed(h: HistMean)
  {
    match h
    case MeanDirectory(files) => forall f :: f in files ==> |files[f].lat| == |files[f].lon|
    case MeanFile(file) => |file.lat| == |file.lon|
    case _ => true
  }

  /** `hist_mean_dict` with the coordinates `lat_mean`, `lon_mean` of its cells. */
  datatype MeanGrid = MeanGrid(means: map<string, seq<Num>>, lat: seq<real>, lon: seq<real>)

  /** The directory case: the file `hist_mean_<crop>-<irr>_<y0>-<y1>.hdf5` of each
      irrigation type is read, and the coordinates are those of the last file. */
  function DirectoryMeans(files: map<string, HistMeanFile>, crop: string, irrTypes: seq<string>,
                          yearrange: (int, int)): (r: Outcome<MeanGrid>)
    requires |irrTypes| >= 1
    ensures r.Success? <==> forall x :: x in irrTypes ==> HistMeanFilename(crop, x, yearrange) in files
    ensures r.Failure? ==> r.error.FileError?
    ensures r.Success? ==> forall x :: x in r.value.means <==> x in irrTypes
    ensures r.Success? ==> forall x :: x in irrTypes ==> r.value.means[x] == files[HistMeanFilename(crop, x, yearrange)].mean
    ensures r.Success? ==> var last := files[HistMeanFilename(crop, irrTypes[|irrTypes| - 1], yearrange)];
                           r.value.lat == last.lat && r.value.lon == last.lon
    decreases |irrTypes|
  {
    var n := |irrTypes| - 1;
    var name := HistMeanFilename(crop, irrTypes[n], yearrange);
    if n == 0 then
      if name !in files then Failure(FileError(name))
      else Success(MeanGrid(map[irrTypes[0] := files[name].mean], files[name].lat, files[name].lon))
    else
      var init := irrTypes[..n];
      assert irrTypes == init + [irrTypes[n]];
      var g :- DirectoryMeans(files, crop, init, yearrange);
      if name !in files then Failure(FileError(name))
      else Success(MeanGrid(g.means[irrTypes[n] := files[name].mean], files[name].lat, files[name].lon))
  }

  /** `hist_mean` resolved to `hist_mean_dict`, `lat_mean` and `lon_mean`. A dict or
      an array is taken to lie on the exposure's own cells. */
  function ResolveHistMean(h: HistMean, crop: string, irrTypes: seq<string>, yearrange: (int, int),
                           lat: seq<real>, lon: seq<real>): (r: Outcome<MeanGrid>)
    requires |irrTypes| >= 1
    ensures h.MeanDict? ==> (r.Success? <==> "firr" in h.entries || "noirr" in h.entries)
    ensures h.MeanDict? && r.Success? ==> r.value == MeanGrid(h.entries, lat, lon)
    ensures h.MeanArray? ==> r == Success(MeanGrid(map[irrTypes[0] := h.values], lat, lon))
    ensures h.MeanDirectory? ==> r == DirectoryMeans(h.files, crop, irrTypes, yearrange)
    ensures h.MeanFile? ==> (r.Success? <==> |irrTypes| == 1)
    ensures h.MeanFile? && r.Success? ==> r.value == MeanGrid(map[irrTypes[0] := h.file.mean], h.file.lat, h.file.lon)
    ensures (h.MeanNotFound? || h.MeanDict? || h.MeanFile?) && r.Failure? ==> r.error.ValueError?
    ensures HistMeanWellFormed(h) && |lat| == |lon| && r.Success? ==> |r.value.lat| == |r.value.lon|
  {
    match h
    case MeanDict(entries) =>
      if "firr" !in entries && "noirr" !in entries then Failure(ValueError("Invalid hist_mean provided"))
      else Success(MeanGrid(entries, lat, lon))
    case MeanArray(values) =>
      Success(MeanGrid(map[irrTypes[0] := values], lat, lon))
    case MeanDirectory(files) =>
      DirectoryMeans(files, crop, irrTypes, yearrange)
    case MeanFile(file) =>
      if |irrTypes| > 1 then Failure(ValueError("For irr=='combined', hist_mean cannot be a single file."))
      else Success(MeanGrid(map[irrTypes[0] := file.mean], file.lat, file.lon))
    case MeanNotFound(path) =>
      Failure(ValueError("Invalid hist_mean provided: " + path))
  }

  // ---------------------------------------------------------------- coordinate match

  /** numpy can combine `lat_mean == la` and `lon_mean == lo` with `&`: the two
      coordinate arrays have the same length, or one of them has a single entry,
      which is then repeated. */
  predicate Broadcastable(latMean: seq<real>, lonMean: seq<real>)
  {
    |latMean| == |lonMean| || |latMean| == 1 || |lonMean| == 1
  }

  /** The length of the broadcast comparison. */
  function BroadcastLength(latMean: seq<real>, lonMean: seq<real>): nat
  {
    if |latMean| == 1 then |lonMean| else |latMean|
  }

  /** Entry `j` of a coordinate array as broadcast: a single entry stands for all. */
  function CoordAt(s: seq<real>, j: nat): real
    requires j < |s| || |s| == 1
  {
    if |s| == 1 then s[0] else s[j]
  }

  /** Entry `j` of `(lat_mean == la) & (lon_mean == lo)` holds. */
  predicate Matches(latMean: seq<real>, lonMean: seq<real>, j: nat, la: real, lo: real)
  {
    && Broadcastable(latMean, lonMean) && j < BroadcastLength(latMean, lonMean)
    && CoordAt(latMean, j) == la && CoordAt(lonMean, j) == lo
  }

  /** Some historical-mean cell lies at (la, lo). */
  ghost predicate HasMatch(latMean: seq<real>, lonMean: seq<real>, la: real, lo: real)
  {
    exists j: nat :: Matches(latMean, lonMean, j, la, lo)
  }

  /** The first matching historical-mean cell at or after `j`. */
  function FirstMatchFrom(latMean: seq<real>, lonMean: seq<real>, la: real, lo: real, j: nat): (r: Option<nat>)
    ensures r.Some? ==> j <= r.value && Matches(latMean, lonMean, r.value, la, lo)
                        && forall k: nat :: j <= k < r.value ==> !Matches(latMean, lonMean, k, la, lo)
    ensures r.None? ==> forall k: nat :: j <= k ==> !Matches(latMean, lonMean, k, la, lo)
    decreases BroadcastLength(latMean, lonMean) - j
  {
    if j >= BroadcastLength(latMean, lonMean) then None
    else if Matches(latMean, lonMean, j, la, lo) then Some(j)
    else FirstMatchFrom(latMean, lonMean, la, lo, j + 1)
  }

  /** `idx_mean`: the identity when both grids have as many cells, otherwise for
      each exposure cell the first historical-mean cell with the same latitude and
      longitude; a cell without one makes `np.where(...)[0][0]` raise IndexError,
      and coordinate arrays `&` cannot combine raise ValueError at the first cell. */
  function MeanIndex(lat: seq<real>, lon: seq<real>, latMean: seq<real>, lonMean: seq<real>)
    : (r: Outcome<seq<nat>>)
    requires |lat| == |lon|
    ensures |latMean| == |lat| ==> r.Success? && r.value == seq(|lat|, i requires 0 <= i < |lat| => i as nat)
    ensures |latMean| != |lat| ==>
              (r.Success? <==> forall i :: 0 <= i < |lat| ==>
                                 HasMatch(latMean, lonMean, lat[i], lon[i]))
    ensures |latMean| != |lat| && r.Success? ==>
              |r.value| == |lat|
              && forall i :: 0 <= i < |lat| ==>
                   Matches(latMean, lonMean, r.value[i], lat[i], lon[i])
                   && forall k: nat :: k < r.value[i] ==> !Matches(latMean, lonMean, k, lat[i], lon[i])
    ensures r.Failure? ==> r.error == if Broadcastable(latMean, lonMean) then NoMatch else NotBroadcast
  {
    if |latMean| == |lat| then Success(seq(|lat|, i requires 0 <= i < |lat| => i as nat))
    else if |lat| > 0 && !Broadcastable(latMean, lonMean) then
      assert !HasMatch(latMean, lonMean, lat[0], lon[0]);
      var e: Outcome<seq<nat>> := Failure(NotBroadcast);
      e
    else if forall i :: 0 <= i < |lat| ==> FirstMatchFrom(latMean, lonMean, lat[i], lon[i], 0).Some? then
      AllMatched(lat, lon, latMean, lonMean);
      Success(seq(|lat|, i requires 0 <= i < |lat| => FirstMatchFrom(latMean, lonMean, lat[i], lon[i], 0).value))
    else
      var e: Outcome<seq<nat>> := Failure(NoMatch);
      e
  }

  /** `np.where(...)[0][0]` on an empty match. */
  const NoMatch: PyError := IndexError("index 0 is out of bounds for axis 0 with size 0")

  /** `&` on arrays of lengths numpy cannot broadcast together. */
  const NotBroadcast: PyError := ValueError("operands could not be broadcast together")

  lemma AllMatched(lat: seq<real>, lon: seq<real>, latMean: seq<real>, lonMean: seq<real>)
    requires |lat| == |lon|
    requires forall i :: 0 <= i < |lat| ==> FirstMatchFrom(latMean, lonMean, lat[i], lon[i], 0).Some?
    ensures forall i :: 0 <= i < |lat| ==> HasMatch(latMean, lonMean, lat[i], lon[i])
  {
    forall i | 0 <= i < |lat|
      ensures HasMatch(latMean, lonMean, lat[i], lon[i])
    {
      var m := FirstMatchFrom(latMean, lonMean, lat[i], lon[i], 0);
      assert Matches(latMean, lonMean, m.value, lat[i], lon[i]);
    }
  }

  /** The loop filling the integer array `idx_mean`, a linear search per cell. */
  method IndexMean(lat: seq<real>, lon: seq<real>, latMean: seq<real>, lonMean: seq<real>)
    returns (r: Outcome<seq<nat>>)
    requires |lat| == |lon|
    ensures r == MeanIndex(lat, lon, latMean, lonMean)
  {
    if |latMean| == |lat| {
      return Success(seq(|lat|, i requires 0 <= i < |lat| => i as nat));
    }
    if |lat| > 0 && !Broadcastable(latMean, lonMean) {
      return Failure(NotBroadcast);
    }
    var idx := new nat[|lat|];
    for i := 0 to |lat|
      invariant forall k :: 0 <= k < i ==> FirstMatchFrom(latMean, lonMean, lat[k], lon[k], 0) == Some(idx[k])
    {
      var j := 0;
      while j < BroadcastLength(latMean, lonMean) && !(CoordAt(latMean, j) == lat[i] && CoordAt(lonMean, j) == lon[i])
        invariant 0 <= j <= BroadcastLength(latMean, lonMean)
        invariant FirstMatchFrom(latMean, lonMean, lat[i], lon[i], 0) == FirstMatchFrom(latMean, lonMean, lat[i], lon[i], j)
      {
        j := j + 1;
      }
      if j == BroadcastLength(latMean, lonMean) {
        return Failure(NoMatch);
      }
      idx[i] := j;
    }
    assert idx[..] == seq(|lat|, i requires 0 <= i < |lat| => FirstMatchFrom(latMean, lonMean, lat[i], lon[i], 0).value);
    return Success(idx[..]);
  }

  // ---------------------------------------------------------------- combination

  /** Every irrigation type has an area layer with one entry per exposure cell. */
  ghost predicate AreasFit(areaCrop: map<string, seq<real>>, irrTypes: seq<string>, idx: seq<nat>)
  {
    forall x :: x in irrTypes ==> x in areaCrop && |areaCrop[x]| == |idx|
  }

  /** `nan_to_num(area_crop[irr] * hist_mean_dict[irr][idx_mean])`: per cell the area
      times the mean yield of the matched cell, 0 where that yield is NaN. A type
      missing from the dict raises KeyError, an index past the array IndexError. */
  function TermLayer(area: seq<real>, means: map<string, seq<Num>>, irr: string, idx: seq<nat>)
    : (r: Outcome<seq<real>>)
    requires |area| == |idx|
    ensures r.Success? <==> irr in means && forall i :: 0 <= i < |idx| ==> idx[i] < |means[irr]|
    ensures r.Failure? ==> r.error == (if irr !in means then KeyError(irr) else IndexError("idx_mean"))
    ensures r.Success? ==>
              |r.value| == |idx|
              && (forall i :: 0 <= i < |idx| && means[irr][idx[i]].NaN? ==> r.value[i] == 0.0)
              && (forall i :: 0 <= i < |idx| && means[irr][idx[i]].Fin? ==>
                    r.value[i] == area[i] * means[irr][idx[i]].r)
  {
    if irr !in means then Failure(KeyError(irr))
    else if exists i :: 0 <= i < |idx| && idx[i] >= |means[irr]| then Failure(IndexError("idx_mean"))
    else Success(seq(|idx|, i requires 0 <= i < |idx| => NanToNum(Times(Fin(area[i]), means[irr][idx[i]]))))
  }

  /** `gdf['value']` after the first type and the `+=` of the others: the cell-wise
      sum of the term layers, or the error of the first type that fails. */
  function Combined(areaCrop: map<string, seq<real>>, means: map<string, seq<Num>>,
                    irrTypes: seq<string>, idx: seq<nat>): (r: Outcome<seq<real>>)
    requires AreasFit(areaCrop, irrTypes, idx) && |irrTypes| >= 1
    ensures r.Success? ==> |r.value| == |idx|
    decreases |irrTypes|
  {
    var n := |irrTypes| - 1;
    if n == 0 then TermLayer(areaCrop[irrTypes[0]], means, irrTypes[0], idx)
    else
      assert irrTypes == irrTypes[..n] + [irrTypes[n]];
      var acc :- Combined(areaCrop, means, irrTypes[..n], idx);
      var layer :- TermLayer(areaCrop[irrTypes[n]], means, irrTypes[n], idx);
      Success(Added(acc, layer))
  }

  /** The cell-wise sum of two columns. */
  function Added(a: seq<real>, b: seq<real>): (s: seq<real>)
    requires |a| == |b|
  {
    seq(|a|, i requires 0 <= i < |a| => a[i] + b[i])
  }

  /** The value can be computed exactly when every type's term can. */
  lemma {:induction false} CombinedSucceeds(areaCrop: map<string, seq<real>>, means: map<string, seq<Num>>,
                                            irrTypes: seq<string>, idx: seq<nat>)
    requires AreasFit(areaCrop, irrTypes, idx) && |irrTypes| >= 1
    ensures (Combined(areaCrop, means, irrTypes, idx).Success?)
              <==> (forall x :: x in irrTypes ==> TermLayer(areaCrop[x], means, x, idx).Success?)
    decreases |irrTypes|
  {
    var n := |irrTypes| - 1;
    if n > 0 {
      assert irrTypes == irrTypes[..n] + [irrTypes[n]];
      CombinedSucceeds(areaCrop, means, irrTypes[..n], idx);
    }
  }

  lemma {:induction false} CombinedPrefixFails(areaCrop: map<string, seq<real>>, means: map<string, seq<Num>>,
                                               irrTypes: seq<string>, idx: seq<nat>, k: nat)
    requires AreasFit(areaCrop, irrTypes, idx) && 1 <= k <= |irrTypes|
    requires Combined(areaCrop, means, irrTypes[..k], idx).Failure?
    ensures Combined(areaCrop, means, irrTypes, idx) == Combined(areaCrop, means, irrTypes[..k], idx)
    decreases |irrTypes| - k
  {
    if k == |irrTypes| {
      assert irrTypes[..k] == irrTypes;
    } else {
      assert irrTypes[..k + 1][..k] == irrTypes[..k];
      CombinedPrefixFails(areaCrop, means, irrTypes, idx, k + 1);
    }
  }

  lemma CombinedStep(areaCrop: map<string, seq<real>>, means: map<string, seq<Num>>,
                     irrTypes: seq<string>, idx: seq<nat>, k: nat, acc: seq<real>)
    requires AreasFit(areaCrop, irrTypes, idx) && 1 <= k < |irrTypes|
    requires Combined(areaCrop, means, irrTypes[..k], idx) == Success(acc)
    requires TermLayer(areaCrop[irrTypes[k]], means, irrTypes[k], idx).Success?
    ensures var term := TermLayer(areaCrop[irrTypes[k]], means, irrTypes[k], idx).value;
            Combined(areaCrop, means, irrTypes[..k + 1], idx)
              == Success(Added(acc, term))
  {
    assert irrTypes[..k + 1][..k] == irrTypes[..k];
    assert irrTypes[..k + 1][k] == irrTypes[k];
  }

  lemma CombinedStepFails(areaCrop: map<string, seq<real>>, means: map<string, seq<Num>>,
                          irrTypes: seq<string>, idx: seq<nat>, k: nat)
    requires AreasFit(areaCrop, irrTypes, idx) && 1 <= k < |irrTypes|
    requires Combined(areaCrop, means, irrTypes[..k], idx).Success?
    requires TermLayer(areaCrop[irrTypes[k]], means, irrTypes[k], idx).Failure?
    ensures Combined(areaCrop, means, irrTypes, idx)
              == Failure(TermLayer(areaCrop[irrTypes[k]], means, irrTypes[k], idx).error)
  {
    assert irrTypes[..k + 1][..k] == irrTypes[..k];
    assert irrTypes[..k + 1][k] == irrTypes[k];
    CombinedPrefixFails(areaCrop, means, irrTypes, idx, k + 1);
  }

  lemma CombinedFirst(areaCrop: map<string, seq<real>>, means: map<string, seq<Num>>,
                      irrTypes: seq<string>, idx: seq<nat>)
    requires AreasFit(areaCrop, irrTypes, idx) && 1 <= |irrTypes|
    ensures Combined(areaCrop, means, irrTypes[..1], idx) == TermLayer(areaCrop[irrTypes[0]], means, irrTypes[0], idx)
    ensures TermLayer(areaCrop[irrTypes[0]], means, irrTypes[0], idx).Failure? ==>
              Combined(areaCrop, means, irrTypes, idx) == TermLayer(areaCrop[irrTypes[0]], means, irrTypes[0], idx)
  {
    assert irrTypes[..1] == [irrTypes[0]];
    if TermLayer(areaCrop[irrTypes[0]], means, irrTypes[0], idx).Failure? {
      CombinedPrefixFails(areaCrop, means, irrTypes, idx, 1);
    }
  }

  /** For 'combined' each cell is the full-irrigation term plus the rainfed term;
      for a single type it is that type's term. */
  lemma CombinedTerms(areaCrop: map<string, seq<real>>, means: map<string, seq<Num>>, irr: string, idx: seq<nat>)
    requires AreasFit(areaCrop, IrrTypes(irr), idx)
    requires forall x :: x in IrrTypes(irr) ==> TermLayer(areaCrop[x], means, x, idx).Success?
    ensures Combined(areaCrop, means, IrrTypes(irr), idx).Success?
    ensures var v := Combined(areaCrop, means, IrrTypes(irr), idx).value;
            if irr == "combined" then
              var f := TermLayer(areaCrop["firr"], means, "firr", idx).value;
              var n := TermLayer(areaCrop["noirr"], means, "noirr", idx).value;
              forall i :: 0 <= i < |idx| ==> v[i] == f[i] + n[i]
            else
              v == TermLayer(areaCrop[irr], means, irr, idx).value
  {
    CombinedSucceeds(areaCrop, means, IrrTypes(irr), idx);
    if irr == "combined" {
      var ts := IrrTypes(irr);
      assert ts[..1] == ["firr"];
    }
  }

  /** The value fill of `from_isimip_netcdf`: the first type's term is written into
      a fresh value array and every further type's term is added in place. */
  method CombineIrrigation(areaCrop: map<string, seq<real>>, means: map<string, seq<Num>>,
                           irrTypes: seq<string>, idx: seq<nat>) returns (r: Outcome<seq<real>>)
    requires AreasFit(areaCrop, irrTypes, idx) && |irrTypes| >= 1
    ensures r == Combined(areaCrop, means, irrTypes, idx)
  {
    CombinedFirst(areaCrop, means, irrTypes, idx);
    var first := TermLayer(areaCrop[irrTypes[0]], means, irrTypes[0], idx);
    if first.Failure? {
      return first;
    }
    var value := new real[|idx|](i requires 0 <= i < |idx| => first.value[i]);
    assert value[..] == first.value;
    for k := 1 to |irrTypes|
      invariant Combined(areaCrop, means, irrTypes[..k], idx) == Success(value[..])
    {
      var term := TermLayer(areaCrop[irrTypes[k]], means, irrTypes[k], idx);
      if term.Failure? {
        CombinedStepFails(areaCrop, means, irrTypes, idx, k);
        return Failure(term.error);
      }
      ghost var before := value[..];
      CombinedStep(areaCrop, means, irrTypes, idx, k, before);
      AddInPlace(value, term.value);
    }
    assert irrTypes[..|irrTypes|] == irrTypes;
    return Success(value[..]);
  }

  /** `value += value_tmp` on the value column. */
  method AddInPlace(value: array<real>, term: seq<real>)
    requires value.Length == |term|
    modifies value
    ensures value[..] == Added(old(value[..]), term)
  {
    forall i | 0 <= i < value.Length {
      value[i] := value[i] + term[i];
    }
  }

  // ---------------------------------------------------------------- the exposure

  /** The keyword arguments of `from_isimip_netcdf` the model keeps; `input_dir` and
      `bbox` only locate the dataset and cut it, and the datasets are given cut. */
  datatype Request = Request(filename: Option<string>, histMean: HistMean, yearrange: Option<(int, int)>,
                             clModel: Option<string>, scenario: Option<string>, crop: Option<string>,
                             irr: Option<string>, isimipVersion: Option<string>, unit: Option<string>,
                             fnStrVar: Option<string>)

  /** The landuse datasets by file name, each flattened to grid cells. */
  ghost predicate DatasetsWellFormed(datasets: map<string, Landuse>)
  {
    forall f :: f in datasets ==> LanduseWellFormed(datasets[f])
  }

  /** The exposure's description. */
  function Description(display: string, irr: string, yearrange: (int, int)): string
  {
    "Crop production exposure from ISIMIP " + display + " " + irr + " "
      + IntToString(yearrange.0) + " " + IntToString(yearrange.1)
  }

  /** The defaulted year range: the one given, or the chunk's default, whose
      lookup fails for a version or scenario without a `YEARCHUNKS` entry. */
  function RequestYears(q: Request): (r: Outcome<(int, int)>)
    ensures q.yearrange.Some? ==> r == Success(q.yearrange.value)
    ensures q.yearrange.None? ==>
              (r.Success? <==> YearChunkOf(IsimipVersion(q.isimipVersion), Scenario(q.scenario)).Success?)
    ensures q.yearrange.None? && r.Success? ==>
              r.value == YearChunkOf(IsimipVersion(q.isimipVersion), Scenario(q.scenario)).value.yearrange
  {
    if q.yearrange.Some? then Success(q.yearrange.value)
    else
      var c :- YearChunkOf(IsimipVersion(q.isimipVersion), Scenario(q.scenario));
      Success(c.yearrange)
  }

  /** The crop's `CROP_NAME` entry; a missing crop is looked up as `None`. */
  function RequestCrop(q: Request): (r: Outcome<CropName>)
    ensures r.Success? <==> q.crop.Some? && CropNames(q.crop.value).Some?
    ensures r.Success? ==> r.value == CropNames(q.crop.value).value
    ensures r.Failure? ==> r.error == KeyError(if q.crop.None? then "None" else q.crop.value)
  {
    if q.crop.None? then Failure(KeyError("None")) else CropNameOf(q.crop.value)
  }

  /** The landuse file of the request, opened, with its year chunk; a file that
      does not exist cannot be opened. */
  function OpenLanduse(q: Request, datasets: map<string, Landuse>): (r: Outcome<(Landuse, YearChunk)>)
    requires DatasetsWellFormed(datasets)
    ensures var sel := LanduseSelection(q.filename, Scenario(q.scenario), IsimipVersion(q.isimipVersion),
                                        q.clModel, FnStrVar(q.fnStrVar));
            && (r.Success? <==> sel.Success? && sel.value.0 in datasets)
            && (sel.Success? && sel.value.0 !in datasets ==> r == Failure(FileError(sel.value.0)))
            && (r.Success? ==> r.value == (datasets[sel.value.0], sel.value.1))
    ensures r.Success? ==> LanduseWellFormed(r.value.0)
  {
    var selection :- LanduseSelection(q.filename, Scenario(q.scenario), IsimipVersion(q.isimipVersion),
                                      q.clModel, FnStrVar(q.fnStrVar));
    if selection.0 !in datasets then Failure(FileError(selection.0))
    else Success((datasets[selection.0], selection.1))
  }

  /** The value column of the exposure: the crop areas of the irrigation types
      over the time window, the historical means resolved and matched to the
      cells, and the terms combined. */
  function CellValues(d: Landuse, crop: string, irr: string, yearrange: (int, int), chunk: YearChunk,
                      histMean: HistMean): (r: Outcome<seq<real>>)
    requires LanduseWellFormed(d)
    ensures r.Success? ==> |r.value| == |d.lat|
  {
    var types := IrrTypes(irr);
    var areaCrop :- AreaCropMap(d, crop, types, TimeIdx(yearrange, chunk));
    var grid :- ResolveHistMean(histMean, crop, types, yearrange, d.lat, d.lon);
    var idx :- MeanIndex(d.lat, d.lon, grid.lat, grid.lon);
    Combined(areaCrop, grid.means, types, idx)
  }

  /** The three loops of `from_isimip_netcdf` that compute the value column. */
  method FillValues(d: Landuse, crop: string, irr: string, yearrange: (int, int), chunk: YearChunk,
                    histMean: HistMean) returns (r: Outcome<seq<real>>)
    requires LanduseWellFormed(d)
    ensures r == CellValues(d, crop, irr, yearrange, chunk, histMean)
  {
    var types := IrrTypes(irr);
    var areaCrop :- FillAreaCrop(d, crop, types, TimeIdx(yearrange, chunk));
    var grid :- ResolveHistMean(histMean, crop, types, yearrange, d.lat, d.lon);
    var idx :- IndexMean(d.lat, d.lon, grid.lat, grid.lon);
    r := CombineIrrigation(areaCrop, grid.means, types, idx);
  }

  /** The exposure `from_isimip_netcdf` builds, in tonnes per year, before any unit
      conversion: the cells of the selected dataset, with `CellValues` of that
      dataset (the combined production of the irrigation types) as value. */
  function IsimipTonnes(q: Request, datasets: map<string, Landuse>): (r: Outcome<CropExposure>)
    requires DatasetsWellFormed(datasets)
    ensures q.yearrange.None? && YearChunkOf(IsimipVersion(q.isimipVersion), Scenario(q.scenario)).Failure? ==>
              r.Failure?
    ensures r.Success? ==>
              var e := r.value;
              && WellFormed(e) && AllFinite(e.value)
              && e.tonnesPerYear.None? && e.valueUnit == "t/y"
              && q.crop == Some(e.crop) && RequestCrop(q).Success?
              && RequestYears(q) == Success(e.refYear)
              && e.description == Description(RequestCrop(q).value.display, Irrigation(q.irr), e.refYear)
    ensures r.Success? ==>
              var e, ds := r.value, OpenLanduse(q, datasets);
              && ds.Success?
              && e.lat == ds.value.0.lat && e.lon == ds.value.0.lon
              && e.regionId == ds.value.0.regionId
              && CellValues(ds.value.0, e.crop, Irrigation(q.irr), e.refYear, ds.value.1, q.histMean)
                   == Success(Values(e.value))
  {
    var irr := Irrigation(q.irr);
    var yearrange :- RequestYears(q);
    var dataset :- OpenLanduse(q, datasets);
    var d := dataset.0;
    var name :- RequestCrop(q);
    var crop := q.crop.value;
    var value :- CellValues(d, crop, irr, yearrange, dataset.1, q.histMean);
    Success(TonnesExposure(d, crop, Description(name.display, irr, yearrange), yearrange, value))
  }

  /** The cells of the dataset with the given production, in tonnes per year. */
  function TonnesExposure(d: Landuse, crop: string, description: string, yearrange: (int, int),
                          value: seq<real>): (e: CropExposure)
    requires LanduseWellFormed(d) && |value| == |d.lat|
    ensures WellFormed(e) && AllFinite(e.value) && Values(e.value) == value
    ensures e.lat == d.lat && e.lon == d.lon && e.regionId == d.regionId
    ensures e.tonnesPerYear.None? && e.valueUnit == "t/y" && e.crop == crop
    ensures e.description == description && e.refYear == yearrange
  {
    CropExposure(d.lat, d.lon, d.regionId, seq(|value|, i requires 0 <= i < |value| => Fin(value[i])),
                 None, crop, "t/y", description, yearrange)
  }

  /** What `from_isimip_netcdf` returns: the exposure in tonnes per year, converted
      to USD per year with the FAO prices when the unit names USD, else to kcal per
      year (dry-matter factors) when it names kcal, else as it is. */
  ghost predicate IsNetcdfExposure(q: Request, datasets: map<string, Landuse>, prices: PriceTable,
                                   r: Outcome<CropExposure>)
    requires DatasetsWellFormed(datasets)
  {
    var base := IsimipTonnes(q, datasets);
    var unit := Unit(q.unit);
    && (base.Failure? ==> r == base)
    && (base.Success? && Contains(unit, "USD") ==> IsUsdConversion(base.value, prices, None, r))
    && (base.Success? && !Contains(unit, "USD") && Contains(unit, "kcal") ==>
          r == ValueToKcal(base.value, false))
    && (base.Success? && !Contains(unit, "USD") && !Contains(unit, "kcal") ==> r == base)
  }

  /** `from_isimip_netcdf`: the exposure in tonnes per year, converted to USD per
      year with the FAO prices when the unit names USD, else to kcal per year
      (dry-matter factors) when it names kcal. */
  method FromIsimipNetcdf(q: Request, datasets: map<string, Landuse>, prices: PriceTable)
    returns (r: Outcome<CropExposure>)
    requires DatasetsWellFormed(datasets)
    ensures IsNetcdfExposure(q, datasets, prices, r)
  {
    var irr := Irrigation(q.irr);
    var unit := Unit(q.unit);
    var yearrange :- RequestYears(q);
    var dataset :- OpenLanduse(q, datasets);
    var d := dataset.0;
    var name :- RequestCrop(q);
    var crop := q.crop.value;
    var value :- FillValues(d, crop, irr, yearrange, dataset.1, q.histMean);
    var e := TonnesExposure(d, crop, Description(name.display, irr, yearrange), yearrange, value);
    assert IsimipTonnes(q, datasets) == Success(e);
    if Contains(unit, "USD") {
      r := ValueToUsd(e, prices, None);
    } else if Contains(unit, "kcal") {
      r := ValueToKcal(e, false);
    } else {
      r := Success(e);
    }
  }
}
