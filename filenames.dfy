/** The file names crop_production.py writes and reads back: ISIMIP landuse
    inputs, historical-mean files and exposure outputs. */
module Filenames {
  import opened Wrappers
  import opened Strings
  import opened Parameters

  /** `'{}'.format(x)` of an optional argument: a missing one prints as 'None'. */
  function FormatOption(x: Option<string>): string
  {
    if x.None? then "None" else x.value
  }

  /** Default landuse file name of a scenario: `scenario_fnstr_start_end.nc` for
      'histsoc' and '1860soc', `scenario_clmodel_fnstr_start_end.nc` otherwise. */
  function LanduseFilename(scenario: string, clModel: Option<string>, fnStrVar: string,
                           chunk: YearChunk): (name: string)
  {
    var years := [IntToString(chunk.startyear), IntToString(chunk.endyear)];
    if scenario in {"histsoc", "1860soc"} then
      Join([scenario, fnStrVar] + years, '_') + ".nc"
    else
      Join([scenario, FormatOption(clModel), fnStrVar] + years, '_') + ".nc"
  }

  lemma JoinHead(parts: seq<string>, sep: char)
    requires |parts| >= 2
    ensures Join(parts, sep) == parts[0] + [sep] + Join(parts[1..], sep)
  {
  }

  /** The first '_' field of a default landuse name is its scenario, so parsing
      an explicit name recovers the scenario a default name was built from. */
  lemma LanduseFilenameScenario(scenario: string, clModel: Option<string>, fnStrVar: string,
                                chunk: YearChunk)
    requires '_' !in scenario
    ensures Split(LanduseFilename(scenario, clModel, fnStrVar, chunk), '_')[0] == scenario
  {
    var years := [IntToString(chunk.startyear), IntToString(chunk.endyear)];
    var parts := if scenario in {"histsoc", "1860soc"} then [scenario, fnStrVar] + years
                 else [scenario, FormatOption(clModel), fnStrVar] + years;
    JoinHead(parts, '_');
    var rest := Join(parts[1..], '_') + ".nc";
    assert LanduseFilename(scenario, clModel, fnStrVar, chunk) == scenario + ['_'] + rest;
    SplitHead(scenario, '_', rest);
  }

  /** The landuse file name and year chunk `from_isimip_netcdf` uses.
      `scenario` has already been aliased. With no file name the default name of
      the scenario is built; in 'flexible' mode the name must have exactly eight
      '_' fields and the years are fields 7 and 8 (the latter without '.nc');
      otherwise the scenario is the text before the first '_'. */
  function LanduseSelection(filename: Option<string>, scenario: string, version: string,
                            clModel: Option<string>, fnStrVar: string): (r: Outcome<(string, YearChunk)>)
    ensures filename.None? ==>
              (r.Success? <==> YearChunkOf(version, scenario).Success?)
    ensures filename.None? && r.Success? ==>
              r.value == (LanduseFilename(scenario, clModel, fnStrVar, r.value.1),
                          YearChunkOf(version, scenario).value)
    ensures filename.Some? ==> (r.Success? ==> r.value.0 == filename.value)
    ensures filename.Some? && scenario == "flexible" && |Split(filename.value, '_')| != 8 ==>
              r.Failure? && r.error.ValueError?
    ensures filename.Some? && scenario != "flexible" ==>
              r == (var c :- YearChunkOf(version, Split(filename.value, '_')[0]);
                    Success((filename.value, c)))
  {
    if filename.None? then
      var chunk :- YearChunkOf(version, scenario);
      Success((LanduseFilename(scenario, clModel, fnStrVar, chunk), chunk))
    else if scenario == "flexible" then
      var fields := Split(filename.value, '_');
      if |fields| != 8 then
        Failure(ValueError("expected 8 '_'-separated fields in " + filename.value))
      else
        var startyear :- ParseInt(fields[6]);
        var endyear :- ParseInt(Split(fields[7], '.')[0]);
        Success((filename.value, YearChunk((startyear, endyear), startyear, endyear)))
    else
      var chunk :- YearChunkOf(version, Split(filename.value, '_')[0]);
      Success((filename.value, chunk))
  }

  /** A 'flexible' name with eight fields whose last two are `start` and
      `end.nc` yields the chunk from `start` to `end`. */
  lemma FlexibleYears(prefix: seq<string>, start: int, end: int, version: string,
                      clModel: Option<string>, fnStrVar: string)
    requires |prefix| == 6 && NoSeparator(prefix, '_')
    ensures var name := Join(prefix + [IntToString(start), IntToString(end) + ".nc"], '_');
            LanduseSelection(Some(name), "flexible", version, clModel, fnStrVar)
              == Success((name, YearChunk((start, end), start, end)))
  {
    var sy := IntToString(start);
    var ey := IntToString(end);
    var last := ey + ".nc";
    var fields := prefix + [sy, last];
    var name := Join(fields, '_');
    assert Split(name, '_') == fields by {
      IntToStringPlain(start);
      IntToStringPlain(end);
      assert '_' !in last;
      assert NoSeparator(fields, '_');
      SplitJoin(fields, '_');
    }
    assert Split(last, '.')[0] == ey by {
      IntToStringPlain(end);
      assert last == ey + ['.'] + "nc";
      SplitHead(ey, '.', "nc");
    }
    assert ParseInt(sy) == Success(start) by { ParseIntToString(start); }
    assert ParseInt(ey) == Success(end) by { ParseIntToString(end); }
  }

  /** Name of an exposure file `init_full_exp_set_isimip` writes:
      `crop_production_<crop>-<irr>_<y0>-<y1>.hdf5`. */
  function ExposureFilename(crop: string, irr: string, yearrange: (int, int)): string
  {
    "crop_production_" + crop + "-" + irr + "_" + YearsField(yearrange)
  }

  /** The last '_' field of the exposure and historical-mean names: `<y0>-<y1>.hdf5`. */
  function YearsField(yearrange: (int, int)): (f: string)
    ensures '_' !in f
  {
    IntToStringPlain(yearrange.0);
    IntToStringPlain(yearrange.1);
    IntToString(yearrange.0) + "-" + IntToString(yearrange.1) + ".hdf5"
  }

  /** Name of a historical-mean file: `'hist_mean_%s-%s_%i-%i.hdf5'`. */
  function HistMeanFilename(crop: string, irr: string, yearrange: (int, int)): string
  {
    "hist_mean_" + crop + "-" + irr + "_" + YearsField(yearrange)
  }

  lemma JoinFour(a: string, b: string, c: string, d: string, sep: char)
    ensures Join([a, b, c, d], sep) == a + [sep] + b + [sep] + c + [sep] + d
  {
    var p := [a, b, c, d];
    assert p[1..] == [b, c, d];
    assert p[1..][1..] == [c, d];
    assert p[1..][1..][1..] == [d];
    assert Join([c, d], sep) == c + [sep] + d;
    assert Join([b, c, d], sep) == b + [sep] + Join([c, d], sep);
  }

  /** Four fields joined by '_' split back into those four fields. */
  lemma FourFields(a: string, b: string, c: string, d: string)
    requires '_' !in a && '_' !in b && '_' !in c && '_' !in d
    ensures Split(a + "_" + b + "_" + c + "_" + d, '_') == [a, b, c, d]
  {
    var parts := [a, b, c, d];
    assert NoSeparator(parts, '_');
    assert a + "_" + b + "_" + c + "_" + d == Join(parts, '_') by {
      JoinFour(a, b, c, d, '_');
    }
    SplitJoin(parts, '_');
  }

  lemma NoCharInConcat(x: string, y: string, c: char)
    requires c !in x && c !in y && c != '-'
    ensures c !in x + "-" + y
  {
  }

  /** An exposure name splits into exactly four '_' fields, the third of which is
      `crop-irr`. */
  lemma ExposureFilenameFields(crop: string, irr: string, yearrange: (int, int))
    requires '_' !in crop && '_' !in irr
    ensures Split(ExposureFilename(crop, irr, yearrange), '_')
              == ["crop", "production", crop + "-" + irr, YearsField(yearrange)]
  {
    var c := crop + "-" + irr;
    var d := YearsField(yearrange);
    NoCharInConcat(crop, irr, '_');
    assert ExposureFilename(crop, irr, yearrange) == "crop" + "_" + "production" + "_" + c + "_" + d;
    FourFields("crop", "production", c, d);
  }

  /** A historical-mean name's third '_' field is `crop-irr`. */
  lemma HistMeanFilenameFields(crop: string, irr: string, yearrange: (int, int))
    requires '_' !in crop && '_' !in irr
    ensures Split(HistMeanFilename(crop, irr, yearrange), '_')
              == ["hist", "mean", crop + "-" + irr, YearsField(yearrange)]
  {
    var c := crop + "-" + irr;
    var d := YearsField(yearrange);
    NoCharInConcat(crop, irr, '_');
    assert HistMeanFilename(crop, irr, yearrange) == "hist" + "_" + "mean" + "_" + c + "_" + d;
    FourFields("hist", "mean", c, d);
  }

  /** `crop, irr = crop_irr.split('-')`: exactly two '-' fields, else ValueError. */
  function SplitCropIrr(cropIrr: string): (r: Outcome<(string, string)>)
    ensures r.Success? <==> |Split(cropIrr, '-')| == 2
    ensures r.Success? ==> Join([r.value.0, r.value.1], '-') == cropIrr
    ensures r.Success? ==> '-' !in r.value.0 && '-' !in r.value.1
  {
    var parts := Split(cropIrr, '-');
    if |parts| != 2 then Failure(ValueError("expected crop-irr, got " + cropIrr))
    else
      JoinSplit(cropIrr, '-');
      Success((parts[0], parts[1]))
  }

  /** `crop + '-' + irr` splits back into `(crop, irr)` when neither holds '-'. */
  lemma SplitCropIrrRoundTrip(crop: string, irr: string)
    requires '-' !in crop && '-' !in irr
    ensures SplitCropIrr(crop + "-" + irr) == Success((crop, irr))
  {
    assert crop + "-" + irr == Join([crop, irr], '-');
    SplitJoin([crop, irr], '-');
  }

  /** `_, _, crop_irr, *_ = file.split('_')` followed by the crop-irr split
      (`init_full_exp_set_isimip`): at least three fields, else ValueError. */
  function HistMeanCropIrr(file: string): (r: Outcome<(string, string)>)
    ensures |Split(file, '_')| < 3 ==> r.Failure? && r.error.ValueError?
    ensures |Split(file, '_')| >= 3 ==> r == SplitCropIrr(Split(file, '_')[2])
  {
    var fields := Split(file, '_');
    if |fields| < 3 then Failure(ValueError("expected at least 3 '_' fields in " + file))
    else SplitCropIrr(fields[2])
  }

  /** A historical-mean name gives back its crop and irrigation type. */
  lemma HistMeanCropIrrRoundTrip(crop: string, irr: string, yearrange: (int, int))
    requires '_' !in crop && '_' !in irr && '-' !in crop && '-' !in irr
    ensures HistMeanCropIrr(HistMeanFilename(crop, irr, yearrange)) == Success((crop, irr))
  {
    HistMeanFilenameFields(crop, irr, yearrange);
    SplitCropIrrRoundTrip(crop, irr);
  }

  /** `_, _, crop_irr, years = file_firr.split('_')` and `crop, _ = crop_irr.split('-')`
      (`normalize_several_exp`): exactly four fields, else ValueError; gives the
      crop and the years field. */
  function ExposureCropYears(file: string): (r: Outcome<(string, string)>)
    ensures r.Success? <==> |Split(file, '_')| == 4 && SplitCropIrr(Split(file, '_')[2]).Success?
    ensures r.Success? ==> r.value == (SplitCropIrr(Split(file, '_')[2]).value.0, Split(file, '_')[3])
    ensures r.Failure? ==> r.error.ValueError?
  {
    var fields := Split(file, '_');
    if |fields| != 4 then Failure(ValueError("expected 4 '_' fields in " + file))
    else
      var cropIrr :- SplitCropIrr(fields[2]);
      Success((cropIrr.0, fields[3]))
  }

  /** The name `normalize_several_exp` reads the rain-fed exposure from. */
  function NoirrPartner(crop: string, years: string): string
  {
    "crop_production_" + crop + "-" + "noirr" + "_" + years
  }

  /** An exposure name gives back its crop and years field, and the partner name
      derived from it is the name written for the same crop with irr = 'noirr'. */
  lemma ExposureFilenameRoundTrip(crop: string, irr: string, yearrange: (int, int))
    requires '_' !in crop && '_' !in irr && '-' !in crop && '-' !in irr
    ensures ExposureCropYears(ExposureFilename(crop, irr, yearrange))
              == Success((crop, YearsField(yearrange)))
    ensures NoirrPartner(crop, YearsField(yearrange)) == ExposureFilename(crop, "noirr", yearrange)
  {
    ExposureFilenameFields(crop, irr, yearrange);
    SplitCropIrrRoundTrip(crop, irr);
  }
}
