/** `CropProduction.from_mean_of_several_isimip_models`: one exposure per landuse
    file of the input directory (optionally only the files of a climate model or
    scenario), combined column by column and averaged cell by cell. */
module SeveralModels {
  import opened Wrappers
  import opened Numeric
  import opened Strings
  import opened Parameters
  import opened Exposure
  import opened Valuation
  import opened IsimipExposure

  // ---------------------------------------------------------------- the files

  /** `filenames['all']`: the listed files whose name holds 'nc', hidden files
      (a leading '.') excepted, in listing order. */
  function ModelFiles(dir: seq<string>): (r: seq<string>)
    ensures forall f :: f in r <==> f in dir && Contains(f, "nc") && !("." <= f)
    ensures |r| <= |dir|
  {
    if |dir| == 0 then []
    else
      var rest := ModelFiles(dir[1..]);
      assert forall f :: f in dir <==> f == dir[0] || f in dir[1..];
      if Contains(dir[0], "nc") && !("." <= dir[0]) then [dir[0]] + rest else rest
  }

  /** A file the subset filter keeps: one whose name holds the climate model or the
      scenario when both are given, the one that is given otherwise, and any file
      when neither is. */
  predicate InSubset(name: string, clModel: Option<string>, scenario: Option<string>)
  {
    if clModel.Some? && scenario.Some? then Contains(name, clModel.value) || Contains(name, scenario.value)
    else if clModel.Some? then Contains(name, clModel.value)
    else if scenario.Some? then Contains(name, scenario.value)
    else true
  }

  /** `filenames['subset']`, with the filters applied to the file names: the kept
      files, in order. */
  function Kept(all: seq<string>, clModel: Option<string>, scenario: Option<string>): (kept: seq<string>)
    ensures |kept| <= |all|
    ensures forall k :: 0 <= k < |kept| ==> InSubset(kept[k], clModel, scenario)
  {
    if |all| == 0 then []
    else
      var last := all[|all| - 1];
      Kept(all[..|all| - 1], clModel, scenario) + (if InSubset(last, clModel, scenario) then [last] else [])
  }

  /** The kept files are exactly the files the filter accepts. */
  lemma {:induction false} KeptMembers(all: seq<string>, clModel: Option<string>, scenario: Option<string>)
    ensures forall f :: f in Kept(all, clModel, scenario) <==> f in all && InSubset(f, clModel, scenario)
    decreases |all|
  {
    if |all| > 0 {
      var init := all[..|all| - 1];
      KeptMembers(init, clModel, scenario);
      assert all == init + [all[|all| - 1]];
    }
  }

  /** Without a filter every file is kept, in order. */
  lemma {:induction false} KeptAll(all: seq<string>)
    ensures Kept(all, None, None) == all
    decreases |all|
  {
    if |all| > 0 {
      KeptAll(all[..|all| - 1]);
      assert all == all[..|all| - 1] + [all[|all| - 1]];
    }
  }

  /** The list-append loop of the subset filter, testing the file names; without a
      filter the subset is reset to the whole list at every file. */
  method SubsetFiles(all: seq<string>, clModel: Option<string>, scenario: Option<string>)
    returns (subset: seq<string>)
    ensures subset == Kept(all, clModel, scenario)
  {
    subset := [];
    for i := 0 to |all|
      invariant clModel.Some? || scenario.Some? ==> subset == Kept(all[..i], clModel, scenario)
      invariant clModel.None? && scenario.None? ==> subset == if i == 0 then [] else all
    {
      var name := all[i];
      assert all[..i + 1] == all[..i] + [name];
      if clModel.Some? && scenario.Some? {
        if Contains(name, clModel.value) || Contains(name, scenario.value) {
          subset := subset + [name];
        }
      } else if clModel.Some? {
        if Contains(name, clModel.value) {
          subset := subset + [name];
        }
      } else if scenario.Some? {
        if Contains(name, scenario.value) {
          subset := subset + [name];
        }
      } else {
        subset := all;
      }
    }
    if clModel.None? && scenario.None? {
      KeptAll(all);
    } else {
      assert all[..|all|] == all;
    }
  }

  /** The subset filter as written: `cl_model in name` and `scenario in name` test a
      string against a path object, which raises TypeError on the first file as
      soon as a filter is given. */
  function SubsetAsWritten(all: seq<string>, clModel: Option<string>, scenario: Option<string>)
    : (r: Outcome<seq<string>>)
    ensures r.Failure? <==> |all| > 0 && (clModel.Some? || scenario.Some?)
    ensures r.Success? ==> r.value == Kept(all, clModel, scenario)
  {
    if |all| > 0 && (clModel.Some? || scenario.Some?) then
      Failure(TypeError("argument of type 'PosixPath' is not iterable"))
    else if |all| == 0 then Success([])
    else
      KeptAll(all);
      Success(all)
  }

  /** A directory with one file of the requested climate model: the filter as
      written raises TypeError, the name filter keeps the file. */
  lemma SubsetAsWrittenRejectsModel()
    ensures SubsetAsWritten(["gfdl.nc"], Some("gfdl"), None).Failure?
    ensures Kept(["gfdl.nc"], Some("gfdl"), None) == ["gfdl.nc"]
  {
    assert Contains("gfdl.nc", "gfdl") by {
      assert "gfdl" <= "gfdl.nc";
    }
    assert ["gfdl.nc"][..0] == [];
  }

  // ---------------------------------------------------------------- the mean

  /** The parameters of `from_mean_of_several_isimip_models` the exposures depend on. */
  datatype MeanRequest = MeanRequest(histMean: HistMean, yearrange: Option<(int, int)>,
                                     clModel: Option<string>, scenario: Option<string>,
                                     crop: Option<string>, irr: Option<string>,
                                     isimipVersion: Option<string>, unit: Option<string>,
                                     fnStrVar: Option<string>)

  /** The call of `from_isimip_netcdf` for one file: the defaulted version, unit
      and year range are passed on, the scenario and climate model are not (they
      are read from the file name), and only the first call passes `fn_str_var`. */
  function FileRequest(m: MeanRequest, yearrange: (int, int), file: string, first: bool): Request
  {
    Request(Some(file), m.histMean, Some(yearrange), None, None, m.crop, m.irr,
            Some(IsimipVersion(m.isimipVersion)), Some(Unit(m.unit)),
            if first then Some(FnStrVar(m.fnStrVar)) else None)
  }

  /** `combined_exp[:, j] = value` for a column of `n` rows: the value, a single
      value repeated over every row (numpy broadcasting), or ValueError. */
  function Broadcast(v: seq<Num>, n: nat): (r: Outcome<seq<Num>>)
    ensures r.Success? <==> |v| == n || |v| == 1
    ensures r.Success? ==> |r.value| == n
    ensures r.Success? ==> forall i :: 0 <= i < n ==> r.value[i] == v[if |v| == n then i else 0]
    ensures r.Failure? ==> r.error.ValueError?
  {
    if |v| == n then Success(v)
    else if |v| == 1 then Success(seq(n, i requires 0 <= i < n => v[0]))
    else Failure(ValueError("could not broadcast input array into combined_exp"))
  }

  /** The columns of `combined_exp` that the exposures fill, `n` rows each. */
  function Columns(exps: seq<CropExposure>, n: nat): (r: Outcome<seq<seq<Num>>>)
    ensures r.Success? ==> |r.value| == |exps| && forall j :: 0 <= j < |exps| ==> |r.value[j]| == n
    ensures r.Failure? ==> r.error.ValueError?
  {
    if |exps| == 0 then Success([])
    else
      var init :- Columns(exps[..|exps| - 1], n);
      var col :- Broadcast(exps[|exps| - 1].value, n);
      Success(init + [col])
  }

  /** The columns can be filled exactly when every exposure has `n` cells or one. */
  lemma {:induction false} ColumnsSucceed(exps: seq<CropExposure>, n: nat)
    ensures (Columns(exps, n).Success?)
              <==> forall j :: 0 <= j < |exps| ==> |exps[j].value| == n || |exps[j].value| == 1
    decreases |exps|
  {
    if |exps| > 0 {
      var init := exps[..|exps| - 1];
      ColumnsSucceed(init, n);
      assert forall j :: 0 <= j < |init| ==> init[j] == exps[j];
    }
  }

  /** The value columns of the exposures. */
  function ValueColumns(exps: seq<CropExposure>): (cols: seq<seq<Num>>)
  {
    seq(|exps|, j requires 0 <= j < |exps| => exps[j].value)
  }

  /** Exposures of `n` cells each fill the columns with their values. */
  lemma {:induction false} ColumnsExact(exps: seq<CropExposure>, n: nat)
    requires forall j :: 0 <= j < |exps| ==> |exps[j].value| == n
    ensures Columns(exps, n) == Success(ValueColumns(exps))
    decreases |exps|
  {
    if |exps| > 0 {
      var init := exps[..|exps| - 1];
      ColumnsExact(init, n);
      assert ValueColumns(exps) == ValueColumns(init) + [exps[|exps| - 1].value];
    }
  }

  /** Cell `i` of every column. */
  function Row(cols: seq<seq<Num>>, i: nat): (row: seq<Num>)
    requires forall j :: 0 <= j < |cols| ==> i < |cols[j]|
  {
    seq(|cols|, j requires 0 <= j < |cols| => cols[j][i])
  }

  /** `np.mean(combined_exp, 1)`: each cell's mean over the columns, NaN where a
      column holds NaN or there is no column. */
  function MeanColumn(cols: seq<seq<Num>>, n: nat): (m: seq<Num>)
    requires forall j :: 0 <= j < |cols| ==> |cols[j]| == n
  {
    seq(n, i requires 0 <= i < n => MeanOfNums(Row(cols, i)))
  }

  /** A cell of the mean is finite exactly when there is a column and every
      column is finite there; it is then the columns' sum over their count. */
  lemma MeanColumnCell(cols: seq<seq<Num>>, n: nat, i: nat)
    requires forall j :: 0 <= j < |cols| ==> |cols[j]| == n
    requires i < n
    ensures MeanColumn(cols, n)[i].Fin? <==> |cols| > 0 && forall j :: 0 <= j < |cols| ==> cols[j][i].Fin?
    ensures MeanColumn(cols, n)[i].Fin? ==>
              MeanColumn(cols, n)[i].r * (|cols| as real) == Sum(Values(Row(cols, i)))
  {
    var row := Row(cols, i);
    assert forall j :: 0 <= j < |cols| ==> row[j] == cols[j][i];
  }

  /** A single finite column is its own mean. */
  lemma MeanOfOne(v: seq<Num>)
    requires AllFinite(v)
    ensures MeanColumn([v], |v|) == v
  {
    forall i | 0 <= i < |v|
      ensures MeanColumn([v], |v|)[i] == v[i]
    {
      var row := Row([v], i);
      assert row == [v[i]];
      assert Values(row) == [v[i].r];
      assert Sum([v[i].r]) == v[i].r;
    }
  }

  /** The mean does not depend on the order of the files: permuting the columns
      leaves every cell's mean unchanged. */
  lemma MeanOrderFree(a: seq<seq<Num>>, b: seq<seq<Num>>, n: nat)
    requires forall j :: 0 <= j < |a| ==> |a[j]| == n
    requires forall j :: 0 <= j < |b| ==> |b[j]| == n
    requires multiset(a) == multiset(b)
    ensures MeanColumn(a, n) == MeanColumn(b, n)
  {
    forall i | 0 <= i < n
      ensures MeanColumn(a, n)[i] == MeanColumn(b, n)[i]
    {
      RowPermutation(a, b, n, i);
      MeanOfNumsPermutation(Row(a, i), Row(b, i));
    }
  }

  /** The cells `i` of two permutations of columns are permutations of each other. */
  lemma {:induction false} RowPermutation(a: seq<seq<Num>>, b: seq<seq<Num>>, n: nat, i: nat)
    requires forall j :: 0 <= j < |a| ==> |a[j]| == n
    requires forall j :: 0 <= j < |b| ==> |b[j]| == n
    requires multiset(a) == multiset(b) && i < n
    ensures multiset(Row(a, i)) == multiset(Row(b, i))
    decreases |a|
  {
    if |a| == 0 {
      assert |b| == |multiset(b)|;
    } else {
      assert a[0] in multiset(b);
      var k :| 0 <= k < |b| && b[k] == a[0];
      var rest := b[..k] + b[k + 1..];
      PermutationRest(a, b, k);
      RowWithout(b, n, i, k);
      RowPermutation(a[1..], rest, n, i);
      var rb := Row(b, i);
      MultisetSplit(rb, k);
      assert Row(a, i) == [a[0][i]] + Row(a[1..], i);
      calc {
        multiset(Row(a, i));
        multiset(Row(a[1..], i)) + multiset{a[0][i]};
        multiset(Row(rest, i)) + multiset{rb[k]};
        multiset(rb);
      }
    }
  }

  /** Removing column `k` removes cell `k` from every row. */
  lemma RowWithout(b: seq<seq<Num>>, n: nat, i: nat, k: nat)
    requires forall j :: 0 <= j < |b| ==> |b[j]| == n
    requires i < n && k < |b|
    ensures var rest := b[..k] + b[k + 1..];
            && (forall j :: 0 <= j < |rest| ==> |rest[j]| == n)
            && Row(rest, i) == Row(b, i)[..k] + Row(b, i)[k + 1..]
  {
    var rest := b[..k] + b[k + 1..];
    assert forall j :: 0 <= j < |rest| ==> rest[j] == b[if j < k then j else j + 1];
  }

  /** The exposure `from_mean_of_several_isimip_models` returns: the last file's
      exposure with the cell-wise mean of all files' values, or ValueError when
      some file's exposure does not fit the first one's cells, or when the means
      of the first one's cells do not fit the last one's. */
  function Combine(exps: seq<CropExposure>): (r: Outcome<CropExposure>)
    requires |exps| > 0
  {
    var n := |exps[0].value|;
    var cols :- Columns(exps, n);
    var last := exps[|exps| - 1];
    if |last.value| != n then Failure(LengthMismatch(n, |last.value|))
    else Success(last.(value := MeanColumn(cols, n)))
  }

  /** `exp.gdf.value = mean` with a mean of another length than the column. */
  function LengthMismatch(values: nat, index: nat): PyError
  {
    ValueError("Length of values (" + IntToString(values) + ") does not match length of index ("
               + IntToString(index) + ")")
  }

  /** The combination fails exactly when some file's exposure has a number of cells
      other than the first one's and other than one, or the last one's number of
      cells differs from the first one's; otherwise it keeps the last exposure's
      cells and attributes and has one mean per cell. */
  lemma CombineOutcome(exps: seq<CropExposure>)
    requires |exps| > 0
    ensures (Combine(exps).Success?)
              <==> (forall j :: 0 <= j < |exps| ==> |exps[j].value| == |exps[0].value| || |exps[j].value| == 1)
                   && |exps[|exps| - 1].value| == |exps[0].value|
    ensures Combine(exps).Failure? ==> Combine(exps).error.ValueError?
    ensures Combine(exps).Success? ==>
              var e, last := Combine(exps).value, exps[|exps| - 1];
              && |e.value| == |exps[0].value|
              && e.(value := last.value) == last
  {
    ColumnsSucceed(exps, |exps[0].value|);
  }

  /** All files on the same cells: cell `i` of the result is the mean of the files'
      cells `i`, whatever order the files were listed in. */
  lemma CombineSameCells(exps: seq<CropExposure>, other: seq<CropExposure>)
    requires |exps| > 0 && forall j :: 0 <= j < |exps| ==> |exps[j].value| == |exps[0].value|
    requires multiset(other) == multiset(exps)
    ensures |other| > 0 && forall j :: 0 <= j < |other| ==> |other[j].value| == |exps[0].value|
    ensures Combine(exps).Success? && Combine(other).Success?
    ensures Combine(exps).value.value == Combine(other).value.value
  {
    var n := |exps[0].value|;
    assert |other| == |multiset(other)| && |exps| == |multiset(exps)|;
    forall j | 0 <= j < |other|
      ensures |other[j].value| == n
    {
      assert other[j] in multiset(exps);
    }
    ColumnsExact(exps, n);
    ColumnsExact(other, n);
    assert |other[0].value| == n;
    ValueColumnsPermutation(exps, other);
    MeanOrderFree(ValueColumns(exps), ValueColumns(other), n);
  }

  /** The value columns of two permutations of exposures are permutations of each other. */
  lemma {:induction false} ValueColumnsPermutation(a: seq<CropExposure>, b: seq<CropExposure>)
    requires multiset(a) == multiset(b)
    ensures multiset(ValueColumns(a)) == multiset(ValueColumns(b))
    decreases |a|
  {
    if |a| == 0 {
      assert |b| == |multiset(b)|;
    } else {
      assert a[0] in multiset(b);
      var k :| 0 <= k < |b| && b[k] == a[0];
      PermutationRest(a, b, k);
      ValueColumnsPermutation(a[1..], b[..k] + b[k + 1..]);
      ValueColumnsWithout(b, k);
      MultisetSplit(ValueColumns(b), k);
      assert ValueColumns(a) == [a[0].value] + ValueColumns(a[1..]);
    }
  }

  lemma ValueColumnsWithout(b: seq<CropExposure>, k: nat)
    requires k < |b|
    ensures ValueColumns(b[..k] + b[k + 1..]) == ValueColumns(b)[..k] + ValueColumns(b)[k + 1..]
  {
    var rest := b[..k] + b[k + 1..];
    assert forall j :: 0 <= j < |rest| ==> rest[j] == b[if j < k then j else j + 1];
  }

  /** Every call so far returned what `from_isimip_netcdf` promises for its file.
      `Ran` and `Called` unfold one another one level at a time, so a proof about
      the list of calls sees the individual calls only where it asks for them. */
  ghost predicate Ran(files: seq<string>, m: MeanRequest, yr: (int, int), datasets: map<string, Landuse>,
                      prices: PriceTable, outs: seq<Outcome<CropExposure>>)
    requires DatasetsWellFormed(datasets)
    decreases |outs|, 1
  {
    && |outs| <= |files|
    && (|outs| > 0 ==> Called(files, m, yr, datasets, prices, outs))
  }

  /** The calls before the last one are as `Ran` says, and the last one was made for
      its own file. */
  ghost predicate Called(files: seq<string>, m: MeanRequest, yr: (int, int), datasets: map<string, Landuse>,
                         prices: PriceTable, outs: seq<Outcome<CropExposure>>)
    requires DatasetsWellFormed(datasets) && 0 < |outs| <= |files|
    decreases |outs|, 0
  {
    && Ran(files, m, yr, datasets, prices, outs[..|outs| - 1])
    && IsNetcdfExposure(FileRequest(m, yr, files[|outs| - 1], |outs| == 1), datasets, prices, outs[|outs| - 1])
  }

  /** Call `j` was made with the request for file `j`, the first one with `fn_str_var`. */
  lemma {:induction false} RanAt(files: seq<string>, m: MeanRequest, yr: (int, int), datasets: map<string, Landuse>,
                                 prices: PriceTable, outs: seq<Outcome<CropExposure>>, j: nat)
    requires DatasetsWellFormed(datasets) && Ran(files, m, yr, datasets, prices, outs) && j < |outs|
    ensures j < |files|
    ensures IsNetcdfExposure(FileRequest(m, yr, files[j], j == 0), datasets, prices, outs[j])
    decreases |outs|
  {
    assert Called(files, m, yr, datasets, prices, outs);
    if j < |outs| - 1 {
      var init := outs[..|outs| - 1];
      RanAt(files, m, yr, datasets, prices, init, j);
      assert init[j] == outs[j];
    }
  }

  /** `from_isimip_netcdf` for the next file, the first one with `fn_str_var`. */
  method CallFile(files: seq<string>, m: MeanRequest, yr: (int, int), datasets: map<string, Landuse>,
                  prices: PriceTable, ghost outs: seq<Outcome<CropExposure>>, j: nat)
    returns (out: Outcome<CropExposure>)
    requires DatasetsWellFormed(datasets) && Ran(files, m, yr, datasets, prices, outs) && j == |outs| < |files|
    ensures Ran(files, m, yr, datasets, prices, outs + [out])
  {
    out := FromIsimipNetcdf(FileRequest(m, yr, files[j], j == 0), datasets, prices);
    SnocParts(outs, out);
    assert Called(files, m, yr, datasets, prices, outs + [out]);
  }

  lemma SnocParts<T>(s: seq<T>, x: T)
    ensures (s + [x])[..|s|] == s && (s + [x])[|s|] == x && |s + [x]| == |s| + 1
  {
  }

  ghost predicate AllSucceeded(outs: seq<Outcome<CropExposure>>)
  {
    forall j :: 0 <= j < |outs| ==> outs[j].Success?
  }

  ghost function Succeeded(outs: seq<Outcome<CropExposure>>): (exps: seq<CropExposure>)
    requires AllSucceeded(outs)
  {
    seq(|outs|, j requires 0 <= j < |outs| => outs[j].value)
  }

  /** The exposures, as results of the calls. */
  ghost function Results(exps: seq<CropExposure>): (outs: seq<Outcome<CropExposure>>)
    ensures AllSucceeded(outs) && Succeeded(outs) == exps
  {
    var outs := seq(|exps|, j requires 0 <= j < |exps| => Success(exps[j]));
    assert Succeeded(outs) == exps;
    outs
  }

  lemma ResultsOne(e: CropExposure)
    ensures Results([e]) == [Success(e)]
  {
    assert Results([e])[0] == Success(e);
  }

  lemma ResultsSnoc(exps: seq<CropExposure>, next: Outcome<CropExposure>)
    ensures (Results(exps) + [next])[..|exps|] == Results(exps)
    ensures next.Success? ==> Results(exps) + [next] == Results(exps + [next.value])
  {
  }

  /** The result after the calls `outs`, which stop at the first failure: that
      failure, or else the combination of the exposures. Every exposure before
      the last one fit into its column of `combined_exp`, and calls that all
      succeed stop before the last file only when the last exposure read does
      not fit. */
  ghost predicate MeanOutcome(files: seq<string>, outs: seq<Outcome<CropExposure>>, r: Outcome<CropExposure>)
  {
    && 0 < |outs|
    && AllSucceeded(outs[..|outs| - 1])
    && (|outs| > 1 ==> Columns(Succeeded(outs[..|outs| - 1]), |outs[0].value.value|).Success?)
    && (outs[|outs| - 1].Failure? ==> r == Failure(outs[|outs| - 1].error))
    && (AllSucceeded(outs) ==> r == Combine(Succeeded(outs)))
    && (AllSucceeded(outs) && |outs| < |files| ==> Columns(Succeeded(outs), |outs[0].value.value|).Failure?)
    && (r.Success? ==> |outs| == |files|)
  }

  /** `from_mean_of_several_isimip_models`: `outs` are the results of the calls of
      `from_isimip_netcdf`, one per kept file in order, up to the first that fails
      or does not fit into `combined_exp`. */
  method FromMeanOfSeveralModels(dir: seq<string>, m: MeanRequest, datasets: map<string, Landuse>,
                                 prices: PriceTable)
    returns (r: Outcome<CropExposure>, ghost outs: seq<Outcome<CropExposure>>)
    requires DatasetsWellFormed(datasets)
    ensures var yr := HistsocYears(m.isimipVersion, m.yearrange);
            var files := Kept(ModelFiles(dir), m.clModel, m.scenario);
            && (yr.Failure? ==> r == Failure(yr.error))
            && (yr.Success? && |files| == 0 ==> r == Failure(IndexError("list index out of range")))
            && (yr.Success? && |files| > 0 ==>
                  Ran(files, m, yr.value, datasets, prices, outs) && MeanOutcome(files, outs, r))
  {
    outs := [];
    var yr :- HistsocYears(m.isimipVersion, m.yearrange);
    var files := SubsetFiles(ModelFiles(dir), m.clModel, m.scenario);
    if |files| == 0 {
      return Failure(IndexError("list index out of range")), outs;
    }
    r, outs := MeanOverFiles(files, m, yr, datasets, prices);
  }

  /** The exposure of every file in turn, each written into its column of
      `combined_exp`, then the mean of each row as the last exposure's value. */
  method MeanOverFiles(files: seq<string>, m: MeanRequest, yr: (int, int), datasets: map<string, Landuse>,
                       prices: PriceTable)
    returns (r: Outcome<CropExposure>, ghost outs: seq<Outcome<CropExposure>>)
    requires DatasetsWellFormed(datasets) && |files| > 0
    ensures Ran(files, m, yr, datasets, prices, outs) && MeanOutcome(files, outs, r)
  {
    var first := CallFile(files, m, yr, datasets, prices, [], 0);
    outs := [first];
    if first.Failure? {
      FirstCallFailed(files, first);
      return Failure(first.error), outs;
    }
    r, outs := FromFirst(files, m, yr, datasets, prices, first.value);
  }

  /** `combined_exp` allocated with the first exposure in column 0, then the loop
      over the other files. */
  method FromFirst(files: seq<string>, m: MeanRequest, yr: (int, int), datasets: map<string, Landuse>,
                   prices: PriceTable, first: CropExposure)
    returns (r: Outcome<CropExposure>, ghost outs: seq<Outcome<CropExposure>>)
    requires DatasetsWellFormed(datasets) && |files| > 0
    requires Ran(files, m, yr, datasets, prices, [Success(first)])
    ensures Ran(files, m, yr, datasets, prices, outs) && MeanOutcome(files, outs, r)
  {
    var combined := NewCombined(first.value, |files|);
    Started(files, m, yr, datasets, prices, combined, first);
    r, outs := FillColumns(files, m, yr, datasets, prices, combined, first);
  }

  /** `combined_exp = np.zeros([len(first), columns])` with `first` in column 0. */
  method NewCombined(first: seq<Num>, columns: nat) returns (combined: array2<Num>)
    requires columns > 0
    ensures fresh(combined) && combined.Length0 == |first| && combined.Length1 == columns
    ensures FilledUpTo(combined, [first])
  {
    combined := new Num[|first|, columns]((i, j) => Fin(0.0));
    FillColumn(combined, 0, [], first);
  }

  /** The first exposure read and written into column 0 starts the loop. */
  lemma Started(files: seq<string>, m: MeanRequest, yr: (int, int), datasets: map<string, Landuse>,
                prices: PriceTable, combined: array2<Num>, first: CropExposure)
    requires DatasetsWellFormed(datasets) && 0 < |files|
    requires Ran(files, m, yr, datasets, prices, [Success(first)])
    requires combined.Length0 == |first.value| && combined.Length1 == |files|
    requires FilledUpTo(combined, [first.value])
    ensures Progress(files, m, yr, datasets, prices, combined, [first], [first.value], |first.value|)
  {
    FirstColumn(first, |first.value|);
    ResultsOne(first);
  }

  /** The loop over the files after the first, whose exposure fills column 0 of
      `combined_exp`. */
  method FillColumns(files: seq<string>, m: MeanRequest, yr: (int, int), datasets: map<string, Landuse>,
                     prices: PriceTable, combined: array2<Num>, first: CropExposure)
    returns (r: Outcome<CropExposure>, ghost outs: seq<Outcome<CropExposure>>)
    requires DatasetsWellFormed(datasets) && |files| > 0
    requires Progress(files, m, yr, datasets, prices, combined, [first], [first.value], |first.value|)
    modifies combined
    ensures Ran(files, m, yr, datasets, prices, outs) && MeanOutcome(files, outs, r)
  {
    var exp, n := first, |first.value|;
    ghost var cols := [exp.value];
    ghost var exps := [exp];
    for j := 1 to |files|
      invariant |exps| == j && exp == exps[j - 1]
      invariant Progress(files, m, yr, datasets, prices, combined, exps, cols, n)
    {
      var next, col := Advance(files, m, yr, datasets, prices, combined, exps, cols, n, j);
      if col.Failure? {
        return Failure(col.error), Results(exps) + [next];
      }
      exp := next.value;
      cols := cols + [col.value];
      exps := exps + [exp];
    }
    outs := Results(exps);
    r := Averaged(files, m, yr, datasets, prices, combined, exps, cols, n, exp);
  }

  /** The loop's progress after the files of `exps`: each call returned what
      `from_isimip_netcdf` promises for its file, and every exposure so far fit
      into its column of `combined_exp`, `n` rows by one column per file. */
  ghost predicate Progress(files: seq<string>, m: MeanRequest, yr: (int, int), datasets: map<string, Landuse>,
                           prices: PriceTable, combined: array2<Num>, exps: seq<CropExposure>,
                           cols: seq<seq<Num>>, n: nat)
    requires DatasetsWellFormed(datasets)
    reads combined
  {
    && 0 < |exps| == |cols| <= |files| && |exps[0].value| == n
    && combined.Length0 == n && combined.Length1 == |files|
    && Ran(files, m, yr, datasets, prices, Results(exps))
    && Columns(exps, n) == Success(cols) && FilledUpTo(combined, cols)
  }

  /** One pass of the loop: the call for file `j` and, when its exposure fits,
      column `j` of `combined_exp`. A failing call or an exposure that does not
      fit ends the calls with its error, which `col` then carries. */
  method Advance(files: seq<string>, m: MeanRequest, yr: (int, int), datasets: map<string, Landuse>,
                 prices: PriceTable, combined: array2<Num>, ghost exps: seq<CropExposure>,
                 ghost cols: seq<seq<Num>>, n: nat, j: nat)
    returns (next: Outcome<CropExposure>, col: Outcome<seq<Num>>)
    requires DatasetsWellFormed(datasets) && |exps| == j < |files|
    requires Progress(files, m, yr, datasets, prices, combined, exps, cols, n)
    modifies combined
    ensures Ran(files, m, yr, datasets, prices, Results(exps) + [next])
    ensures col.Failure? ==> next.Failure? || Broadcast(next.value.value, n).Failure?
    ensures col.Failure? ==> MeanOutcome(files, Results(exps) + [next], Failure(col.error))
    ensures col.Success? ==>
              && next.Success? && Results(exps) + [next] == Results(exps + [next.value])
              && Progress(files, m, yr, datasets, prices, combined, exps + [next.value], cols + [col.value], n)
  {
    next := CallFile(files, m, yr, datasets, prices, Results(exps), j);
    if next.Failure? {
      CallFailed(files, exps, next, n, cols);
      return next, Failure(next.error);
    }
    col := Broadcast(next.value.value, n);
    if col.Failure? {
      FitFailed(files, exps, next, n, cols);
      return;
    }
    FitStep(exps, next, n, cols);
    FillColumn(combined, j, cols, col.value);
  }

  /** After the loop: `combined_exp.mean(axis=1)` assigned to the value of the last
      exposure read. */
  method Averaged(ghost files: seq<string>, ghost m: MeanRequest, ghost yr: (int, int),
                  ghost datasets: map<string, Landuse>, ghost prices: PriceTable,
                  combined: array2<Num>, ghost exps: seq<CropExposure>,
                  ghost cols: seq<seq<Num>>, n: nat, last: CropExposure)
    returns (r: Outcome<CropExposure>)
    requires DatasetsWellFormed(datasets) && Progress(files, m, yr, datasets, prices, combined, exps, cols, n)
    requires |exps| == |files| && last == exps[|exps| - 1]
    ensures MeanOutcome(files, Results(exps), r)
  {
    var means := RowMeans(combined);
    RowsMean(combined, cols, means);
    Finished(files, exps, cols, n, means);
    r := if |last.value| != n then Failure(LengthMismatch(n, |last.value|)) else Success(last.(value := means));
  }

  lemma FirstColumn(e: CropExposure, n: nat)
    requires |e.value| == n
    ensures Columns([e], n) == Success([e.value])
  {
    ColumnsExact([e], n);
    assert ValueColumns([e]) == [e.value];
  }

  /** A call that fails is the last one and its error is the result. */
  lemma CallFailed(files: seq<string>, exps: seq<CropExposure>, next: Outcome<CropExposure>, n: nat,
                   cols: seq<seq<Num>>)
    requires |exps| > 0 && |exps[0].value| == n && Columns(exps, n) == Success(cols)
    requires next.Failure?
    ensures MeanOutcome(files, Results(exps) + [next], Failure(next.error))
  {
    ResultsSnoc(exps, next);
  }

  /** So does a failing first call. */
  lemma FirstCallFailed(files: seq<string>, first: Outcome<CropExposure>)
    requires first.Failure?
    ensures MeanOutcome(files, [first], Failure(first.error))
  {
  }

  /** An exposure that does not fit into its column ends the calls with the
      ValueError of the assignment. */
  lemma FitFailed(files: seq<string>, exps: seq<CropExposure>, next: Outcome<CropExposure>, n: nat,
                  cols: seq<seq<Num>>)
    requires |exps| > 0 && |exps[0].value| == n && Columns(exps, n) == Success(cols)
    requires next.Success? && Broadcast(next.value.value, n).Failure?
    ensures MeanOutcome(files, Results(exps) + [next], Failure(Broadcast(next.value.value, n).error))
  {
    ResultsSnoc(exps, next);
    ColumnsSnoc(exps, next.value, n, cols);
    var all := exps + [next.value];
    assert all[0] == exps[0];
    assert Succeeded(Results(all)) == all;
  }

  lemma FitStep(exps: seq<CropExposure>, next: Outcome<CropExposure>, n: nat, cols: seq<seq<Num>>)
    requires Columns(exps, n) == Success(cols)
    requires next.Success? && Broadcast(next.value.value, n).Success?
    ensures Columns(exps + [next.value], n) == Success(cols + [Broadcast(next.value.value, n).value])
    ensures Results(exps) + [next] == Results(exps + [next.value])
  {
    ResultsSnoc(exps, next);
    ColumnsSnoc(exps, next.value, n, cols);
  }

  /** Means of the rows of the filled `combined_exp` are the means of the columns. */
  lemma RowsMean(a: array2<Num>, cols: seq<seq<Num>>, means: seq<Num>)
    requires FilledUpTo(a, cols) && |cols| == a.Length1 && |means| == a.Length0
    requires forall i :: 0 <= i < a.Length0 ==> means[i] == MeanOfNums(RowOf(a, i))
    ensures means == MeanColumn(cols, a.Length0)
  {
    forall i | 0 <= i < a.Length0
      ensures Row(cols, i) == RowOf(a, i)
    {
    }
  }

  /** After every file fit, the result is the combination of all the exposures:
      the last exposure with the row means when it has as many cells as the
      first, else the ValueError of assigning a column of another length. */
  lemma Finished(files: seq<string>, exps: seq<CropExposure>, cols: seq<seq<Num>>, n: nat, means: seq<Num>)
    requires |exps| == |files| > 0 && |exps[0].value| == n && Columns(exps, n) == Success(cols)
    requires means == MeanColumn(cols, n)
    ensures var last := exps[|exps| - 1];
            MeanOutcome(files, Results(exps),
                        if |last.value| != n then Failure(LengthMismatch(n, |last.value|)) else Success(last.(value := means)))
  {
    var outs := Results(exps);
    assert outs[..|outs| - 1] == Results(exps[..|exps| - 1]);
  }

  lemma ColumnsSnoc(exps: seq<CropExposure>, e: CropExposure, n: nat, cols: seq<seq<Num>>)
    requires Columns(exps, n) == Success(cols)
    ensures var col := Broadcast(e.value, n);
            && (col.Success? ==> Columns(exps + [e], n) == Success(cols + [col.value]))
            && (col.Failure? ==> Columns(exps + [e], n) == Failure(col.error))
  {
    assert (exps + [e])[..|exps|] == exps;
  }

  /** Columns `0 .. |cols| - 1` of `a` hold `cols`. */
  ghost predicate FilledUpTo(a: array2<Num>, cols: seq<seq<Num>>)
    reads a
  {
    && |cols| <= a.Length1
    && (forall l :: 0 <= l < |cols| ==> |cols[l]| == a.Length0)
    && forall i, l :: 0 <= i < a.Length0 && 0 <= l < |cols| ==> a[i, l] == cols[l][i]
  }

  /** `combined_exp[:, j] = value` for the next column `j`. */
  method FillColumn(a: array2<Num>, j: nat, ghost cols: seq<seq<Num>>, v: seq<Num>)
    requires FilledUpTo(a, cols) && j == |cols| < a.Length1 && |v| == a.Length0
    modifies a
    ensures FilledUpTo(a, cols + [v])
  {
    for i := 0 to a.Length0
      invariant forall i', l :: 0 <= i' < a.Length0 && 0 <= l < j ==> a[i', l] == cols[l][i']
      invariant forall i' :: 0 <= i' < i ==> a[i', j] == v[i']
    {
      a[i, j] := v[i];
    }
  }

  /** Row `i` of `combined_exp`. */
  function RowOf(a: array2<Num>, i: nat): (row: seq<Num>)
    requires i < a.Length0
    reads a
  {
    seq(a.Length1, l requires 0 <= l < a.Length1 reads a => a[i, l])
  }

  /** `np.mean(combined_exp, 1)`: the mean of each row. */
  method RowMeans(a: array2<Num>) returns (means: seq<Num>)
    ensures |means| == a.Length0
    ensures forall i :: 0 <= i < a.Length0 ==> means[i] == MeanOfNums(RowOf(a, i))
  {
    means := [];
    for i := 0 to a.Length0
      invariant |means| == i
      invariant forall i' :: 0 <= i' < i ==> means[i'] == MeanOfNums(RowOf(a, i'))
    {
      means := means + [MeanOfNums(RowOf(a, i))];
    }
  }
}
