/** Floating-point cells as exact reals with an explicit not-a-number value,
    and the numpy and pandas reductions the crop-production code uses. */
module Numeric {

  /** A float cell: a finite value or NaN. */
  datatype Num = NaN | Fin(r: real)

  /** `np.nan_to_num` on one cell: NaN becomes 0. */
  function NanToNum(x: Num): (v: real)
    ensures x.Fin? ==> v == x.r
    ensures x.NaN? ==> v == 0.0
  {
    match x
    case NaN => 0.0
    case Fin(r) => r
  }

  /** Float multiplication: NaN in, NaN out. */
  function Times(x: Num, y: Num): (z: Num)
    ensures z.Fin? <==> x.Fin? && y.Fin?
    ensures z.Fin? ==> z.r == x.r * y.r
  {
    if x.Fin? && y.Fin? then Fin(x.r * y.r) else NaN
  }

  /** A real factor applied to a cell. */
  function Scale(k: real, x: Num): (z: Num)
    ensures z.Fin? <==> x.Fin?
    ensures z.Fin? ==> z.r == k * x.r
  {
    Times(x, Fin(k))
  }

  function Sum(s: seq<real>): real
  {
    if |s| == 0 then 0.0 else s[0] + Sum(s[1..])
  }

  /** pandas `Series.sum()`: NaN cells are skipped. */
  function SumSkipNaN(s: seq<Num>): real
  {
    if |s| == 0 then 0.0 else NanToNum(s[0]) + SumSkipNaN(s[1..])
  }

  /** `np.mean` of finite values: NaN for an empty selection. */
  function MeanOf(s: seq<real>): (m: Num)
    ensures m.NaN? <==> |s| == 0
    ensures m.Fin? ==> m.r * (|s| as real) == Sum(s)
  {
    if |s| == 0 then NaN else Fin(Sum(s) / (|s| as real))
  }

  predicate AllFinite(s: seq<Num>)
  {
    forall k :: 0 <= k < |s| ==> s[k].Fin?
  }

  function Values(s: seq<Num>): (v: seq<real>)
    requires AllFinite(s)
    ensures |v| == |s| && forall k :: 0 <= k < |s| ==> v[k] == s[k].r
  {
    seq(|s|, k requires 0 <= k < |s| => s[k].r)
  }

  /** `np.mean` of float cells: NaN when the selection is empty or holds a NaN. */
  function MeanOfNums(s: seq<Num>): (m: Num)
    ensures m.Fin? <==> |s| > 0 && AllFinite(s)
  {
    if |s| > 0 && AllFinite(s) then MeanOf(Values(s)) else NaN
  }

  lemma {:induction false} SumAppend(a: seq<real>, b: seq<real>)
    ensures Sum(a + b) == Sum(a) + Sum(b)
    decreases |a|
  {
    if |a| > 0 {
      assert (a + b)[1..] == a[1..] + b;
      SumAppend(a[1..], b);
    } else {
      assert a + b == b;
    }
  }

  /** Every term multiplied by `k`. */
  function ScaledBy(k: real, xs: seq<real>): (ys: seq<real>)
  {
    seq(|xs|, i requires 0 <= i < |xs| => k * xs[i])
  }

  /** Multiplying every term by `k` multiplies the sum by `k`. */
  lemma {:induction false} SumScaled(k: real, xs: seq<real>)
    ensures Sum(ScaledBy(k, xs)) == k * Sum(xs)
    decreases |xs|
  {
    if |xs| > 0 {
      assert forall i :: 0 <= i < |xs| - 1 ==> ScaledBy(k, xs)[1..][i] == ScaledBy(k, xs[1..])[i];
      assert ScaledBy(k, xs)[1..] == ScaledBy(k, xs[1..]);
      SumScaled(k, xs[1..]);
    }
  }

  lemma SumRemove(s: seq<real>, k: nat)
    requires k < |s|
    ensures Sum(s) == s[k] + Sum(s[..k] + s[k + 1..])
  {
    assert s == s[..k] + [s[k]] + s[k + 1..];
    SumAppend(s[..k] + [s[k]], s[k + 1..]);
    SumAppend(s[..k], [s[k]]);
    SumAppend(s[..k], s[k + 1..]);
  }

  /** A sum does not depend on the order of its terms. */
  lemma {:induction false} SumPermutation(a: seq<real>, b: seq<real>)
    requires multiset(a) == multiset(b)
    ensures Sum(a) == Sum(b)
    decreases |a|
  {
    if |a| == 0 {
      assert |b| == |multiset(b)|;
    } else {
      assert a[0] in multiset(b);
      var k :| 0 <= k < |b| && b[k] == a[0];
      PermutationRest(a, b, k);
      SumPermutation(a[1..], b[..k] + b[k + 1..]);
      SumRemove(b, k);
    }
  }

  /** Taking the first term of `a` and an equal term of `b` out of two
      permutations of each other leaves permutations of each other. */
  lemma PermutationRest<T>(a: seq<T>, b: seq<T>, k: nat)
    requires multiset(a) == multiset(b) && |a| > 0 && k < |b| && b[k] == a[0]
    ensures multiset(a[1..]) == multiset(b[..k] + b[k + 1..])
  {
    assert a == [a[0]] + a[1..];
    assert b == b[..k] + [b[k]] + b[k + 1..];
    assert multiset(b[..k] + b[k + 1..]) == multiset(b[..k]) + multiset(b[k + 1..]);
    assert multiset(a) == multiset{a[0]} + multiset(a[1..]);
    assert multiset(b) == multiset(b[..k]) + multiset{b[k]} + multiset(b[k + 1..]);
    assert multiset(a[1..]) == multiset(a) - multiset{a[0]};
    assert multiset(b[..k] + b[k + 1..]) == multiset(b) - multiset{b[k]};
  }

  /** `np.mean` does not depend on the order of the cells it averages. */
  lemma MeanOfNumsPermutation(a: seq<Num>, b: seq<Num>)
    requires multiset(a) == multiset(b)
    ensures MeanOfNums(a) == MeanOfNums(b)
  {
    assert |a| == |multiset(a)| && |b| == |multiset(b)|;
    assert AllFinite(a) <==> AllFinite(b) by {
      if AllFinite(a) {
        forall k | 0 <= k < |b|
          ensures b[k].Fin?
        {
          assert b[k] in multiset(a);
        }
      }
      if AllFinite(b) {
        forall k | 0 <= k < |a|
          ensures a[k].Fin?
        {
          assert a[k] in multiset(b);
        }
      }
    }
    if |a| > 0 && AllFinite(a) {
      ValuesPermutation(a, b);
      SumPermutation(Values(a), Values(b));
    }
  }

  /** The values of two permutations of finite cells are permutations of each other. */
  lemma {:induction false} ValuesPermutation(a: seq<Num>, b: seq<Num>)
    requires multiset(a) == multiset(b) && AllFinite(a) && AllFinite(b)
    ensures multiset(Values(a)) == multiset(Values(b))
    decreases |a|
  {
    if |a| == 0 {
      assert |b| == |multiset(b)|;
    } else {
      assert a[0] in multiset(b);
      var k :| 0 <= k < |b| && b[k] == a[0];
      var rest := b[..k] + b[k + 1..];
      PermutationRest(a, b, k);
      ValuesPermutation(a[1..], rest);
      var vb := Values(b);
      ValuesWithout(b, k);
      MultisetSplit(vb, k);
      calc {
        multiset(Values(a));
        { assert Values(a) == [a[0].r] + Values(a[1..]); }
        multiset{a[0].r} + multiset(Values(a[1..]));
        multiset(vb[..k] + vb[k + 1..]) + multiset{vb[k]};
        multiset(vb);
      }
    }
  }

  /** Dropping cell `k` drops value `k`. */
  lemma ValuesWithout(b: seq<Num>, k: nat)
    requires AllFinite(b) && k < |b|
    ensures AllFinite(b[..k] + b[k + 1..])
    ensures Values(b[..k] + b[k + 1..]) == Values(b)[..k] + Values(b)[k + 1..]
  {
    var rest := b[..k] + b[k + 1..];
    assert forall i :: 0 <= i < |rest| ==> rest[i] == b[if i < k then i else i + 1];
  }

  /** A sequence's multiset is its `k`-th element added to the multiset of the rest. */
  lemma MultisetSplit<T>(s: seq<T>, k: nat)
    requires k < |s|
    ensures multiset(s) == multiset(s[..k] + s[k + 1..]) + multiset{s[k]}
  {
    assert s == s[..k] + [s[k]] + s[k + 1..];
  }

  /** pandas' skipping sum is the sum of the cells with NaN read as 0. */
  lemma {:induction false} SumSkipNaNIsSum(s: seq<Num>)
    ensures SumSkipNaN(s) == Sum(seq(|s|, k requires 0 <= k < |s| => NanToNum(s[k])))
    decreases |s|
  {
    if |s| > 0 {
      SumSkipNaNIsSum(s[1..]);
      var t := seq(|s|, k requires 0 <= k < |s| => NanToNum(s[k]));
      assert t[1..] == seq(|s| - 1, k requires 0 <= k < |s| - 1 => NanToNum(s[1..][k]));
    }
  }
}
