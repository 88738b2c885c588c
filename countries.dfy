/** Grouping exposure cells by country: `np.unique` of the region ids and
    `CropProduction.aggregate_countries`. */
module Countries {
  import opened Numeric

  ghost predicate StrictlyIncreasing(l: seq<int>)
  {
    forall i, j :: 0 <= i < j < |l| ==> l[i] < l[j]
  }

  /** Inserts `x` into a strictly increasing list, keeping it strictly increasing. */
  function Insert(x: int, l: seq<int>): (r: seq<int>)
    requires StrictlyIncreasing(l)
    ensures StrictlyIncreasing(r)
    ensures forall y :: y in r <==> y in l || y == x
  {
    if |l| == 0 then [x]
    else if x < l[0] then [x] + l
    else if x == l[0] then l
    else
      var rest := Insert(x, l[1..]);
      assert forall y :: y in rest ==> l[0] < y;
      assert forall i :: 0 <= i < |rest| ==> l[0] < rest[i] by {
        forall i | 0 <= i < |rest|
          ensures l[0] < rest[i]
        {
          assert rest[i] in rest;
        }
      }
      [l[0]] + rest
  }

  /** `np.unique`: the distinct values, in increasing order. */
  function Unique(s: seq<int>): (r: seq<int>)
    ensures StrictlyIncreasing(r)
    ensures forall y :: y in r <==> y in s
  {
    if |s| == 0 then []
    else
      var u := Unique(s[..|s| - 1]);
      assert s == s[..|s| - 1] + [s[|s| - 1]];
      Insert(s[|s| - 1], u)
  }

  /** The position of `x` in a list holding it; in a strictly increasing list
      the only one. */
  function IndexOf(l: seq<int>, x: int): (k: nat)
    requires x in l
    ensures k < |l| && l[k] == x
  {
    if l[0] == x then 0 else 1 + IndexOf(l[1..], x)
  }

  lemma IndexOfUnique(l: seq<int>, x: int, k: nat)
    requires StrictlyIncreasing(l) && k < |l| && l[k] == x
    ensures IndexOf(l, x) == k
  {
  }

  /** The cells' values with NaN read as 0, and 0 for the cells of other regions. */
  function Masked(region: seq<int>, value: seq<Num>, id: int): (s: seq<real>)
    requires |region| == |value|
  {
    seq(|region|, i requires 0 <= i < |region| => if region[i] == id then NanToNum(value[i]) else 0.0)
  }

  /** `value[region_id == id].sum()`: the region's cells summed, NaN skipped. */
  function RegionTotal(region: seq<int>, value: seq<Num>, id: int): real
    requires |region| == |value|
  {
    Sum(Masked(region, value, id))
  }

  /** One more cell adds its value to the total of its own region only. */
  lemma RegionTotalSnoc(region: seq<int>, value: seq<Num>, id: int, x: int, y: Num)
    requires |region| == |value|
    ensures RegionTotal(region + [x], value + [y], id)
              == RegionTotal(region, value, id) + (if x == id then NanToNum(y) else 0.0)
  {
    var m := Masked(region + [x], value + [y], id);
    assert m == Masked(region, value, id) + [if x == id then NanToNum(y) else 0.0];
    SumAppend(Masked(region, value, id), [if x == id then NanToNum(y) else 0.0]);
  }

  /** The region totals of a list of ids, summed. */
  function SumOver(ids: seq<int>, region: seq<int>, value: seq<Num>): real
    requires |region| == |value|
  {
    if |ids| == 0 then 0.0 else RegionTotal(region, value, ids[0]) + SumOver(ids[1..], region, value)
  }

  /** `aggregate_countries`: the sorted distinct region ids and, for each, the sum
      of the values of its cells; the totals add up to the exposure's total. */
  method AggregateCountries(region: seq<int>, value: seq<Num>) returns (countries: seq<int>, totals: seq<real>)
    requires |region| == |value|
    ensures countries == Unique(region)
    ensures StrictlyIncreasing(countries)
    ensures forall y :: y in countries <==> y in region
    ensures |totals| == |countries|
    ensures forall c :: 0 <= c < |countries| ==> totals[c] == RegionTotal(region, value, countries[c])
    ensures Sum(totals) == SumSkipNaN(value)
  {
    countries := Unique(region);
    var acc := new real[|countries|];
    for i := 0 to |countries|
      invariant forall c :: 0 <= c < i ==> acc[c] == RegionTotal(region, value, countries[c])
    {
      acc[i] := RegionTotal(region, value, countries[i]);
    }
    totals := acc[..];
    SumOfTotals(countries, totals, region, value);
    TotalsConserved(countries, region, value);
  }

  lemma {:induction false} SumOfTotals(ids: seq<int>, totals: seq<real>, region: seq<int>, value: seq<Num>)
    requires |region| == |value| && |totals| == |ids|
    requires forall c :: 0 <= c < |ids| ==> totals[c] == RegionTotal(region, value, ids[c])
    ensures Sum(totals) == SumOver(ids, region, value)
    decreases |ids|
  {
    if |ids| > 0 {
      SumOfTotals(ids[1..], totals[1..], region, value);
    }
  }

  lemma {:induction false} SumSkipNaNSnoc(s: seq<Num>, y: Num)
    ensures SumSkipNaN(s + [y]) == SumSkipNaN(s) + NanToNum(y)
    decreases |s|
  {
    if |s| > 0 {
      assert (s + [y])[1..] == s[1..] + [y];
      SumSkipNaNSnoc(s[1..], y);
    } else {
      assert s + [y] == [y];
    }
  }

  /** Adding one cell adds its value to the sum over the ids exactly when its region is listed once. */
  lemma {:induction false} SumOverSnoc(ids: seq<int>, region: seq<int>, value: seq<Num>, x: int, y: Num)
    requires |region| == |value| && StrictlyIncreasing(ids)
    ensures SumOver(ids, region + [x], value + [y])
              == SumOver(ids, region, value) + (if x in ids then NanToNum(y) else 0.0)
    decreases |ids|
  {
    if |ids| > 0 {
      SumOverSnoc(ids[1..], region, value, x, y);
      RegionTotalSnoc(region, value, ids[0], x, y);
      assert x in ids[1..] <==> x in ids && x != ids[0];
    }
  }

  /** Summing the region totals over a duplicate-free list holding every region id
      gives the total of all cells. */
  lemma {:induction false} TotalsConserved(ids: seq<int>, region: seq<int>, value: seq<Num>)
    requires |region| == |value| && StrictlyIncreasing(ids)
    requires forall y :: y in region ==> y in ids
    ensures SumOver(ids, region, value) == SumSkipNaN(value)
    decreases |region|
  {
    if |region| == 0 {
      SumOverEmpty(ids, region, value);
    } else {
      var n := |region| - 1;
      assert region == region[..n] + [region[n]];
      assert value == value[..n] + [value[n]];
      TotalsConserved(ids, region[..n], value[..n]);
      SumOverSnoc(ids, region[..n], value[..n], region[n], value[n]);
      SumSkipNaNSnoc(value[..n], value[n]);
    }
  }

  lemma {:induction false} SumOverEmpty(ids: seq<int>, region: seq<int>, value: seq<Num>)
    requires |region| == 0 && |value| == 0
    ensures SumOver(ids, region, value) == 0.0
    decreases |ids|
  {
    if |ids| > 0 {
      SumOverEmpty(ids[1..], region, value);
    }
  }

  /** Scaling every cell of a region by `k` scales the region's total by `k`
      (a NaN cell stays NaN and is skipped on both sides). */
  lemma ScaledRegionTotal(region: seq<int>, before: seq<Num>, after: seq<Num>, id: int, k: real)
    requires |region| == |before| == |after|
    requires forall i :: 0 <= i < |region| && region[i] == id ==> after[i] == Times(before[i], Fin(k))
    ensures RegionTotal(region, after, id) == k * RegionTotal(region, before, id)
  {
    MaskedScaled(region, before, after, id, k);
    SumScaled(k, Masked(region, before, id));
  }

  lemma MaskedScaled(region: seq<int>, before: seq<Num>, after: seq<Num>, id: int, k: real)
    requires |region| == |before| == |after|
    requires forall i :: 0 <= i < |region| && region[i] == id ==> after[i] == Times(before[i], Fin(k))
    ensures Masked(region, after, id) == ScaledBy(k, Masked(region, before, id))
  {
    forall i | 0 <= i < |region|
      ensures Masked(region, after, id)[i] == ScaledBy(k, Masked(region, before, id))[i]
    {
      if region[i] == id {
        ScaledCell(before[i], after[i], k);
      } else {
        assert k * 0.0 == 0.0;
      }
    }
  }

  lemma ScaledCell(x: Num, y: Num, k: real)
    requires y == Times(x, Fin(k))
    ensures NanToNum(y) == k * NanToNum(x)
  {
    if x.NaN? {
      assert k * 0.0 == 0.0;
    }
  }
}
