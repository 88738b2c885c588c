/** The two functions that work on whole sets of exposure files:
    `init_full_exp_set_isimip`, which makes one exposure per historical-mean file
    and writes it under a name built from its crop, irrigation type and years, and
    `normalize_several_exp`, which reads the full-irrigation files back, finds the
    rain-fed partner of each by name and normalizes the pair against FAO. */
module ExposureSets {
  import opened Wrappers
  import opened Numeric
  import opened Strings
  import opened Parameters
  import opened Filenames
  import opened Exposure
  import opened Valuation
  import opened IsimipExposure
  import opened Normalization
  import SeveralModels

  // ---------------------------------------------------------------- directory listings

  /** `[f.name for f in dir.iterdir() if f.is_file() and not f.name.startswith('.')]`,
      in listing order. */
  function VisibleFiles(dir: seq<string>): (r: seq<string>)
    ensures forall f :: f in r <==> f in dir && !("." <= f)
    ensures |r| <= |dir|
  {
    if |dir| == 0 then []
    else
      var rest := VisibleFiles(dir[1..]);
      assert forall f :: f in dir <==> f == dir[0] || f in dir[1..];
      if "." <= dir[0] then rest else [dir[0]] + rest
  }

  /** `filenames_firr`: the visible names that hold 'firr', in listing order. */
  function FirrFiles(dir: seq<string>): (r: seq<string>)
    ensures forall f :: f in r <==> f in dir && !("." <= f) && Contains(f, "firr")
    ensures |r| <= |dir|
  {
    if |dir| == 0 then []
    else
      var rest := FirrFiles(dir[1..]);
      assert forall f :: f in dir <==> f == dir[0] || f in dir[1..];
      if !("." <= dir[0]) && Contains(dir[0], "firr") then [dir[0]] + rest else rest
  }

  // ---------------------------------------------------------------- the full exposure set

  /** The keyword arguments of `init_full_exp_set_isimip` the model keeps;
      `input_dir`, `output_dir` and `bbox` only locate and cut the data, and
      `return_data` only decides whether the exposures are kept in a list. */
  datatype SetRequest = SetRequest(filename: Option<string>, yearrange: Option<(int, int)>,
                                   unit: Option<string>, isimipVersion: Option<string>)

  /** The call `from_isimip_netcdf(filename=filename, hist_mean=hist_mean_dir,
      isimip_version=..., yearrange=..., crop=crop, irr=irr, unit=unit)` made for
      one historical-mean file; scenario, `cl_model` and `fn_str_var` keep their
      defaults. */
  function SetFileRequest(s: SetRequest, histFiles: map<string, HistMeanFile>, yr: (int, int),
                          crop: string, irr: string): (q: Request)
    ensures q.histMean == MeanDirectory(histFiles) && q.yearrange == Some(yr)
    ensures q.crop == Some(crop) && q.irr == Some(irr) && q.filename == s.filename
    ensures q.clModel.None? && q.scenario.None? && q.fnStrVar.None?
    ensures q.isimipVersion == Some(IsimipVersion(s.isimipVersion)) && q.unit == Some(Unit(s.unit))
  {
    Request(s.filename, MeanDirectory(histFiles), Some(yr), None, None, Some(crop), Some(irr),
            Some(IsimipVersion(s.isimipVersion)), Some(Unit(s.unit)), None)
  }

  /** What one historical-mean file gives: the ValueError of a name that does not
      unpack into `_, _, crop_irr, *_` and `crop, irr`, the error of
      `from_isimip_netcdf`, or the exposure with the name it is written under. */
  ghost predicate FileOutcome(s: SetRequest, histFiles: map<string, HistMeanFile>, yr: (int, int),
                              datasets: map<string, Landuse>, prices: PriceTable, file: string,
                              o: Outcome<(string, CropExposure)>)
    requires DatasetsWellFormed(datasets)
  {
    var ci := HistMeanCropIrr(file);
    if ci.Failure? then o == Failure(ci.error)
    else
      var q := SetFileRequest(s, histFiles, yr, ci.value.0, ci.value.1);
      && (o.Failure? ==> IsNetcdfExposure(q, datasets, prices, Failure(o.error)))
      && (o.Success? ==> o.value.0 == ExposureFilename(ci.value.0, ci.value.1, yr)
                         && IsNetcdfExposure(q, datasets, prices, Success(o.value.1)))
  }

  /** The files written so far are those of the first files of the listing, in
      order. `Wrote` and `WroteLast` unfold one another one level at a time. */
  ghost predicate Wrote(s: SetRequest, histFiles: map<string, HistMeanFile>, yr: (int, int),
                        datasets: map<string, Landuse>, prices: PriceTable, files: seq<string>,
                        written: seq<(string, CropExposure)>)
    requires DatasetsWellFormed(datasets)
    decreases |written|, 1
  {
    && |written| <= |files|
    && (|written| > 0 ==> WroteLast(s, histFiles, yr, datasets, prices, files, written))
  }

  ghost predicate WroteLast(s: SetRequest, histFiles: map<string, HistMeanFile>, yr: (int, int),
                            datasets: map<string, Landuse>, prices: PriceTable, files: seq<string>,
                            written: seq<(string, CropExposure)>)
    requires DatasetsWellFormed(datasets) && 0 < |written| <= |files|
    decreases |written|, 0
  {
    && Wrote(s, histFiles, yr, datasets, prices, files, written[..|written| - 1])
    && FileOutcome(s, histFiles, yr, datasets, prices, files[|written| - 1], Success(written[|written| - 1]))
  }

  /** File `k` written is the exposure of the `k`-th historical-mean file, under
      the name built from that file's crop and irrigation type. */
  lemma {:induction false} WroteAt(s: SetRequest, histFiles: map<string, HistMeanFile>, yr: (int, int),
                                   datasets: map<string, Landuse>, prices: PriceTable, files: seq<string>,
                                   written: seq<(string, CropExposure)>, k: nat)
    requires DatasetsWellFormed(datasets) && Wrote(s, histFiles, yr, datasets, prices, files, written)
    requires k < |written|
    ensures k < |files|
    ensures FileOutcome(s, histFiles, yr, datasets, prices, files[k], Success(written[k]))
    decreases |written|
  {
    assert WroteLast(s, histFiles, yr, datasets, prices, files, written);
    if k < |written| - 1 {
      var init := written[..|written| - 1];
      WroteAt(s, histFiles, yr, datasets, prices, files, init, k);
      assert init[k] == written[k];
    }
  }

  /** The exposure of one historical-mean file: its name parsed into crop and
      irrigation type, then `from_isimip_netcdf` for them. */
  method ForFile(s: SetRequest, histFiles: map<string, HistMeanFile>, yr: (int, int),
                 datasets: map<string, Landuse>, prices: PriceTable, file: string)
    returns (o: Outcome<(string, CropExposure)>)
    requires DatasetsWellFormed(datasets)
    ensures FileOutcome(s, histFiles, yr, datasets, prices, file, o)
  {
    var ci := HistMeanCropIrr(file);
    if ci.Failure? {
      return Failure(ci.error);
    }
    var crop, irr := ci.value.0, ci.value.1;
    var e := FromIsimipNetcdf(SetFileRequest(s, histFiles, yr, crop, irr), datasets, prices);
    if e.Failure? {
      return Failure(e.error);
    }
    return Success((ExposureFilename(crop, irr, yr), e.value));
  }

  /** `ForFile` for the next file of the listing, kept in the terms of `Wrote`. */
  method NextFile(s: SetRequest, histFiles: map<string, HistMeanFile>, yr: (int, int),
                  datasets: map<string, Landuse>, prices: PriceTable, files: seq<string>,
                  ghost written: seq<(string, CropExposure)>, j: nat)
    returns (o: Outcome<(string, CropExposure)>)
    requires DatasetsWellFormed(datasets) && Wrote(s, histFiles, yr, datasets, prices, files, written)
    requires j == |written| < |files|
    ensures o.Success? ==> Wrote(s, histFiles, yr, datasets, prices, files, written + [o.value])
    ensures o.Failure? ==> FileOutcome(s, histFiles, yr, datasets, prices, files[j], o)
  {
    o := ForFile(s, histFiles, yr, datasets, prices, files[j]);
    if o.Success? {
      WroteSnoc(s, histFiles, yr, datasets, prices, files, written, o.value);
    }
  }

  lemma WroteSnoc(s: SetRequest, histFiles: map<string, HistMeanFile>, yr: (int, int),
                  datasets: map<string, Landuse>, prices: PriceTable, files: seq<string>,
                  written: seq<(string, CropExposure)>, w: (string, CropExposure))
    requires DatasetsWellFormed(datasets) && Wrote(s, histFiles, yr, datasets, prices, files, written)
    requires |written| < |files|
    requires FileOutcome(s, histFiles, yr, datasets, prices, files[|written|], Success(w))
    ensures Wrote(s, histFiles, yr, datasets, prices, files, written + [w])
  {
    var ws := written + [w];
    SeveralModels.SnocParts(written, w);
    assert WroteLast(s, histFiles, yr, datasets, prices, files, ws);
  }


  /** `init_full_exp_set_isimip` on the listing `histNames` of the historical-mean
      directory, whose files are `histFiles`. `written` are the exposure files
      written to the output directory, in order, each under the name
      `crop_production_<crop>-<irr>_<y0>-<y1>.hdf5`; `err` is the exception that
      ended the loop early, if any. The year range defaults to the version's
      'histsoc' range, whose lookup fails before any file is read. */
  method InitFullExpSet(histNames: seq<string>, histFiles: map<string, HistMeanFile>, s: SetRequest,
                        datasets: map<string, Landuse>, prices: PriceTable)
    returns (written: seq<(string, CropExposure)>, err: Option<PyError>)
    requires DatasetsWellFormed(datasets)
    ensures var yr := HistsocYears(s.isimipVersion, s.yearrange);
            var files := VisibleFiles(histNames);
            && (yr.Failure? ==> written == [] && err == Some(yr.error))
            && (yr.Success? ==>
                  && Wrote(s, histFiles, yr.value, datasets, prices, files, written)
                  && (err.None? ==> |written| == |files|)
                  && (err.Some? ==>
                        |written| < |files|
                        && FileOutcome(s, histFiles, yr.value, datasets, prices, files[|written|], Failure(err.value))))
  {
    written := [];
    var yr := HistsocYears(s.isimipVersion, s.yearrange);
    if yr.Failure? {
      return [], Some(yr.error);
    }
    var files := VisibleFiles(histNames);
    for j := 0 to |files|
      invariant |written| == j && Wrote(s, histFiles, yr.value, datasets, prices, files, written)
    {
      var o := NextFile(s, histFiles, yr.value, datasets, prices, files, written, j);
      if o.Failure? {
        return written, Some(o.error);
      }
      written := written + [o.value];
    }
    err := None;
  }

  /** A field of a '_'-split name holds no '_', so neither part of its '-' split does. */
  lemma CropIrrFree(file: string)
    requires HistMeanCropIrr(file).Success?
    ensures var ci := HistMeanCropIrr(file).value;
            '_' !in ci.0 && '_' !in ci.1 && '-' !in ci.0 && '-' !in ci.1
  {
    var field := Split(file, '_')[2];
    var ci := HistMeanCropIrr(file).value;
    assert '_' !in field;
    assert field == ci.0 + "-" + ci.1 by {
      JoinPair(ci.0, ci.1, '-');
    }
    assert forall c :: c in ci.0 ==> c in field;
    assert forall c :: c in ci.1 ==> c in field by {
      forall c | c in ci.1
        ensures c in field
      {
        var i :| 0 <= i < |ci.1| && ci.1[i] == c;
        assert field[|ci.0| + 1 + i] == c;
      }
    }
  }

  lemma JoinPair(a: string, b: string, sep: char)
    ensures Join([a, b], sep) == a + [sep] + b
  {
    var p := [a, b];
    assert p[1..] == [b];
  }

  /** Every written name parses back, the way `normalize_several_exp` reads it,
      into the crop and the years field of its historical-mean file, and the
      rain-fed partner name derived from it is the name written for that crop
      with irr = 'noirr'; a full-irrigation file's name passes the 'firr' filter. */
  lemma WrittenNamesParse(s: SetRequest, histFiles: map<string, HistMeanFile>, yr: (int, int),
                          datasets: map<string, Landuse>, prices: PriceTable, files: seq<string>,
                          written: seq<(string, CropExposure)>, k: nat)
    requires DatasetsWellFormed(datasets) && Wrote(s, histFiles, yr, datasets, prices, files, written)
    requires k < |written|
    ensures k < |files| && HistMeanCropIrr(files[k]).Success?
    ensures var ci := HistMeanCropIrr(files[k]).value;
            && written[k].0 == ExposureFilename(ci.0, ci.1, yr)
            && ExposureCropYears(written[k].0) == Success((ci.0, YearsField(yr)))
            && NoirrPartner(ci.0, YearsField(yr)) == ExposureFilename(ci.0, "noirr", yr)
            && (ci.1 == "firr" ==> Contains(written[k].0, "firr"))
  {
    WroteAt(s, histFiles, yr, datasets, prices, files, written, k);
    FileOutcomeName(s, histFiles, yr, datasets, prices, files[k], written[k]);
    NameParses(files[k], yr);
  }

  /** A file written is named after the crop and irrigation type of its source. */
  lemma FileOutcomeName(s: SetRequest, histFiles: map<string, HistMeanFile>, yr: (int, int),
                        datasets: map<string, Landuse>, prices: PriceTable, file: string,
                        w: (string, CropExposure))
    requires DatasetsWellFormed(datasets) && FileOutcome(s, histFiles, yr, datasets, prices, file, Success(w))
    ensures HistMeanCropIrr(file).Success?
    ensures w.0 == ExposureFilename(HistMeanCropIrr(file).value.0, HistMeanCropIrr(file).value.1, yr)
  {
  }

  /** The exposure name built from a historical-mean name parses back into its
      crop and years, and its rain-fed partner is the 'noirr' name. */
  lemma NameParses(file: string, yr: (int, int))
    requires HistMeanCropIrr(file).Success?
    ensures var ci := HistMeanCropIrr(file).value;
            var name := ExposureFilename(ci.0, ci.1, yr);
            && ExposureCropYears(name) == Success((ci.0, YearsField(yr)))
            && NoirrPartner(ci.0, YearsField(yr)) == ExposureFilename(ci.0, "noirr", yr)
            && (ci.1 == "firr" ==> Contains(name, "firr"))
  {
    var ci := HistMeanCropIrr(file).value;
    CropIrrFree(file);
    ExposureFilenameRoundTrip(ci.0, ci.1, yr);
    if ci.1 == "firr" {
      FirrNameContains(ci.0, yr);
    }
  }

  /** A full-irrigation exposure name passes the 'firr' filter. */
  lemma FirrNameContains(crop: string, yr: (int, int))
    ensures Contains(ExposureFilename(crop, "firr", yr), "firr")
  {
    var p := "crop_production_" + crop + "-";
    var q := "_" + YearsField(yr);
    assert ExposureFilename(crop, "firr", yr) == p + "firr" + q;
    ContainsSelf(ExposureFilename(crop, "firr", yr), "firr", p, q);
  }

  // ---------------------------------------------------------------- normalizing the set

  /** The full-irrigation and rain-fed exposures of a pair are on the same cells. */
  ghost predicate PairsAligned(stored: map<string, CropExposure>)
  {
    forall f :: f in stored && ExposureCropYears(f).Success? ==>
      var p := NoirrPartner(ExposureCropYears(f).value.0, ExposureCropYears(f).value.1);
      p in stored ==> stored[f].regionId == stored[p].regionId
  }

  ghost predicate AllWellFormed(stored: map<string, CropExposure>)
  {
    forall f :: f in stored ==> WellFormed(stored[f])
  }

  /** What one full-irrigation file gives: the ValueError of a name that does not
      unpack into four '_' fields and a crop-irr pair, the error of reading a
      missing rain-fed partner, the error of `normalize_with_fao_cp`, or the crop
      with the normalization of the pair. `unit` is passed on with its default
      't/y', the FAO prices serve a conversion to USD. */
  ghost predicate PairOutcome(stored: map<string, CropExposure>, prod: ProductionTable, prices: PriceTable, unit: Option<string>,
                              yearrange: Option<seq<int>>, file: string, o: Outcome<(string, Normalized)>)
    requires AllWellFormed(stored) && PairsAligned(stored) && file in stored
  {
    var cy := ExposureCropYears(file);
    if cy.Failure? then o == Failure(cy.error)
    else
      var partner := NoirrPartner(cy.value.0, cy.value.1);
      if partner !in stored then o == Failure(FileError(partner))
      else
        var yr := Some(FaoYears(yearrange));
        && (o.Failure? ==> IsNormalization(stored[file], stored[partner], prod, prices, Some(Unit(unit)), yr, Failure(o.error)))
        && (o.Success? ==> o.value.0 == cy.value.0
                           && IsNormalization(stored[file], stored[partner], prod, prices, Some(Unit(unit)), yr, Success(o.value.1)))
  }

  /** The pairs normalized so far are those of the first full-irrigation files,
      in order. `NormalizedUpTo` and `NormalizedLast` unfold one another one level
      at a time. */
  ghost predicate NormalizedUpTo(stored: map<string, CropExposure>, prod: ProductionTable, prices: PriceTable, unit: Option<string>,
                                 yearrange: Option<seq<int>>, files: seq<string>,
                                 done: seq<(string, Normalized)>)
    requires AllWellFormed(stored) && PairsAligned(stored)
    decreases |done|, 1
  {
    && |done| <= |files|
    && (|done| > 0 ==> NormalizedLast(stored, prod, prices, unit, yearrange, files, done))
  }

  ghost predicate NormalizedLast(stored: map<string, CropExposure>, prod: ProductionTable, prices: PriceTable, unit: Option<string>,
                                 yearrange: Option<seq<int>>, files: seq<string>,
                                 done: seq<(string, Normalized)>)
    requires AllWellFormed(stored) && PairsAligned(stored) && 0 < |done| <= |files|
    decreases |done|, 0
  {
    && NormalizedUpTo(stored, prod, prices, unit, yearrange, files, done[..|done| - 1])
    && files[|done| - 1] in stored
    && PairOutcome(stored, prod, prices, unit, yearrange, files[|done| - 1], Success(done[|done| - 1]))
  }

  /** Pair `k` normalized is the outcome of the `k`-th full-irrigation file. */
  lemma {:induction false} NormalizedAt(stored: map<string, CropExposure>, prod: ProductionTable, prices: PriceTable, unit: Option<string>,
                                        yearrange: Option<seq<int>>, files: seq<string>,
                                        done: seq<(string, Normalized)>, k: nat)
    requires AllWellFormed(stored) && PairsAligned(stored)
    requires NormalizedUpTo(stored, prod, prices, unit, yearrange, files, done) && k < |done|
    ensures k < |files| && files[k] in stored
    ensures PairOutcome(stored, prod, prices, unit, yearrange, files[k], Success(done[k]))
    decreases |done|
  {
    assert NormalizedLast(stored, prod, prices, unit, yearrange, files, done);
    if k < |done| - 1 {
      var init := done[..|done| - 1];
      NormalizedAt(stored, prod, prices, unit, yearrange, files, init, k);
      assert init[k] == done[k];
    }
  }

  /** One full-irrigation file: its name parsed into crop and years, both files
      read, the pair normalized with the defaulted unit and the FAO prices. */
  method ForPair(stored: map<string, CropExposure>, prod: ProductionTable, prices: PriceTable, unit: Option<string>, yearrange: Option<seq<int>>,
                 file: string) returns (o: Outcome<(string, Normalized)>)
    requires AllWellFormed(stored) && PairsAligned(stored) && file in stored
    ensures PairOutcome(stored, prod, prices, unit, yearrange, file, o)
  {
    var cy := ExposureCropYears(file);
    if cy.Failure? {
      return Failure(cy.error);
    }
    var crop, years := cy.value.0, cy.value.1;
    var firr := stored[file];
    var partner := NoirrPartner(crop, years);
    if partner !in stored {
      return Failure(FileError(partner));
    }
    var noirr := stored[partner];
    var r := NormalizeWithFao(firr, noirr, prod, prices, Some(Unit(unit)), Some(FaoYears(yearrange)));
    if r.Failure? {
      return Failure(r.error);
    }
    return Success((crop, r.value));
  }

  /** `normalize_several_exp` on the exposure directory, given as its listing
      `names` and the exposures `stored` of its files. `done` holds, in listing
      order, the crop and the normalization (countries, ratio, normalized
      exposures, FAO and exposure production) of each full-irrigation file,
      converted back with `unit` (default 't/y') and the FAO prices `prices`;
      `err` is the exception that ended the loop early, if any. */
  method NormalizeSeveral(names: seq<string>, stored: map<string, CropExposure>, prod: ProductionTable, prices: PriceTable, unit: Option<string>,
                          yearrange: Option<seq<int>>)
    returns (done: seq<(string, Normalized)>, err: Option<PyError>)
    requires AllWellFormed(stored) && PairsAligned(stored)
    requires forall f :: f in names ==> f in stored
    ensures var files := FirrFiles(names);
            && NormalizedUpTo(stored, prod, prices, unit, yearrange, files, done)
            && (err.None? ==> |done| == |files|)
            && (err.Some? ==>
                  |done| < |files| && files[|done|] in stored
                  && PairOutcome(stored, prod, prices, unit, yearrange, files[|done|], Failure(err.value)))
  {
    var files := FirrFiles(names);
    done := [];
    for j := 0 to |files|
      invariant |done| == j && NormalizedUpTo(stored, prod, prices, unit, yearrange, files, done)
    {
      assert files[j] in names;
      var o := ForPair(stored, prod, prices, unit, yearrange, files[j]);
      if o.Failure? {
        return done, Some(o.error);
      }
      NormalizedSnoc(stored, prod, prices, unit, yearrange, files, done, o.value);
      done := done + [o.value];
    }
    err := None;
  }

  lemma NormalizedSnoc(stored: map<string, CropExposure>, prod: ProductionTable, prices: PriceTable, unit: Option<string>, yearrange: Option<seq<int>>,
                       files: seq<string>, done: seq<(string, Normalized)>, x: (string, Normalized))
    requires AllWellFormed(stored) && PairsAligned(stored)
    requires NormalizedUpTo(stored, prod, prices, unit, yearrange, files, done) && |done| < |files|
    requires files[|done|] in stored && PairOutcome(stored, prod, prices, unit, yearrange, files[|done|], Success(x))
    ensures NormalizedUpTo(stored, prod, prices, unit, yearrange, files, done + [x])
  {
    SeveralModels.SnocParts(done, x);
    assert NormalizedLast(stored, prod, prices, unit, yearrange, files, done + [x]);
  }

  /** The crops of the normalized pairs are the crops named by the files, and
      their lists have one entry per full-irrigation file when nothing failed. */
  lemma NormalizedCrops(stored: map<string, CropExposure>, prod: ProductionTable, prices: PriceTable, unit: Option<string>, yearrange: Option<seq<int>>,
                        files: seq<string>, done: seq<(string, Normalized)>, k: nat)
    requires AllWellFormed(stored) && PairsAligned(stored)
    requires NormalizedUpTo(stored, prod, prices, unit, yearrange, files, done) && k < |done|
    ensures ExposureCropYears(files[k]).Success? && done[k].0 == ExposureCropYears(files[k]).value.0
    ensures NoirrPartner(ExposureCropYears(files[k]).value.0, ExposureCropYears(files[k]).value.1) in stored
  {
    NormalizedAt(stored, prod, prices, unit, yearrange, files, done, k);
  }
}
