/** Summary statistics of a Gaussian (normal) distribution fitted to a dataset:
    the mean, the sample or population variance and standard deviation, the
    z-score, and the closed-form sum of two independent normals.

    Arithmetic is over Dafny's mathematical `real`, so there is no rounding.
    The square root the distribution needs for its standard deviation is not
    part of Dafny; every member that takes one receives it as the parameter
    `root`, and the facts about it are stated under `IsSquareRoot(root)`. */
module Gaussian {
  import opened Wrappers
  import opened RealArith

  /** What the statistics can raise. */
  datatype StatError =
    | ZeroDivision   // a divisor (dataset length, degrees of freedom, std) is zero
    | NotIterable    // a bare number stands where a dataset is expected

  // ---------------------------------------------------------------------------
  // Sums over a dataset
  // ---------------------------------------------------------------------------

  /** The sum of a dataset. */
  function Sum(d: seq<real>): real {
    if d == [] then 0.0 else d[0] + Sum(d[1..])
  }

  /** The sum of the deviations of the data from `m`. */
  function SumDeviations(d: seq<real>, m: real): real {
    if d == [] then 0.0 else (d[0] - m) + SumDeviations(d[1..], m)
  }

  /** The sum of the squared deviations of the data from `m`: the numerator of
      the variance. */
  function SumSquaredDeviations(d: seq<real>, m: real): real {
    if d == [] then 0.0 else Square(d[0] - m) + SumSquaredDeviations(d[1..], m)
  }

  /** A sum of squared deviations is never negative. */
  lemma {:induction false} SumSquaredDeviationsNonNegative(d: seq<real>, m: real)
    ensures SumSquaredDeviations(d, m) >= 0.0
  {
    if d != [] {
      SquareNonNegative(d[0] - m);
      SumSquaredDeviationsNonNegative(d[1..], m);
    }
  }

  /** Deviations add up to the sum less |d| copies of `m`. */
  lemma {:induction false} SumDeviationsShift(d: seq<real>, m: real)
    ensures SumDeviations(d, m) == Sum(d) - |d| as real * m
  {
    if d != [] {
      SumDeviationsShift(d[1..], m);
    }
  }

  /** The squared deviations are zero exactly when every datum equals `m`. */
  lemma {:induction false} ZeroSpreadIffConstant(d: seq<real>, m: real)
    ensures SumSquaredDeviations(d, m) == 0.0 <==> forall i :: 0 <= i < |d| ==> d[i] == m
  {
    if d != [] {
      ZeroSpreadIffConstant(d[1..], m);
      if SumSquaredDeviations(d, m) == 0.0 {
        SquareNonNegative(d[0] - m);
        SumSquaredDeviationsNonNegative(d[1..], m);
        SquareZero(d[0] - m);
        forall i | 0 <= i < |d|
          ensures d[i] == m
        {
          if i > 0 {
            assert d[i] == d[1..][i - 1];
          }
        }
      } else if forall i :: 0 <= i < |d| ==> d[i] == m {
        assert d[0] == m;
        forall i | 0 <= i < |d| - 1
          ensures d[1..][i] == m
        {
          assert d[1..][i] == d[i + 1];
        }
        assert false;
      }
    }
  }

  /** The sum over the data of a * (x - m) + q: what moving the centre of the
      squared deviations adds to them. */
  function ShiftTerms(d: seq<real>, m: real, a: real, q: real): real {
    if d == [] then 0.0 else a * (d[0] - m) + q + ShiftTerms(d[1..], m, a, q)
  }

  /** Summed, the shift terms are `a` times the deviations plus |d| copies of `q`. */
  lemma {:induction false} ShiftTermsClosedForm(d: seq<real>, m: real, a: real, q: real)
    ensures ShiftTerms(d, m, a, q) == a * SumDeviations(d, m) + |d| as real * q
  {
    if d != [] {
      var t := d[1..];
      ShiftTermsClosedForm(t, m, a, q);
      // The head's deviation, the tail's closed form (shift terms, deviations,
      // length), then the same three quantities for the whole of d.
      ShiftCons(d[0] - m, a, q, ShiftTerms(t, m, a, q), SumDeviations(t, m), |t| as real,
                ShiftTerms(d, m, a, q), SumDeviations(d, m), |d| as real);
    }
  }

  /** Measuring squared deviations from `c` instead of `m` adds, for every
      datum x, the cross term 2(m - c)(x - m) and (m - c)^2. */
  lemma {:induction false} SquaredDeviationsRecentre(d: seq<real>, c: real, m: real)
    ensures SumSquaredDeviations(d, c)
         == SumSquaredDeviations(d, m) + ShiftTerms(d, m, 2.0 * (m - c), Square(m - c))
  {
    if d != [] {
      SquaredDeviationsRecentre(d[1..], c, m);
      SquareRecentre(d[0], c, m);
    }
  }

  // ---------------------------------------------------------------------------
  // mean_of
  // ---------------------------------------------------------------------------

  /** The arithmetic mean; an empty dataset divides by zero. */
  function MeanOf(d: seq<real>): (r: Result<real, StatError>)
    ensures r.Ok? <==> |d| > 0
    ensures r.Ok? ==> r.value * |d| as real == Sum(d)
    ensures r.Err? ==> r.error == ZeroDivision
  {
    if |d| == 0 then Err(ZeroDivision) else Ok(Sum(d) / |d| as real)
  }

  /** The mean is the one point from which the deviations of a non-empty
      dataset cancel out. */
  lemma {:induction false} MeanBalancesDeviations(d: seq<real>, m: real)
    requires |d| > 0
    ensures MeanOf(d) == Ok(m) <==> SumDeviations(d, m) == 0.0
  {
    SumDeviationsShift(d, m);
    var mean, n := MeanOf(d).value, |d| as real;
    if SumDeviations(d, m) == 0.0 {
      assert (mean - m) * n == mean * n - m * n;
      ZeroFactor(mean - m, n);
    }
  }

  // ---------------------------------------------------------------------------
  // standard_deviation_of, as a variance
  // ---------------------------------------------------------------------------

  /** The divisor of the variance: |d| - 1 for a sample (Bessel's correction),
      |d| for a population. */
  function Divisor(n: nat, isSample: bool): int {
    if isSample then n - 1 else n
  }

  /** The mean the variance is measured from: the one supplied, or else the
      mean of the data. */
  function ResolveMean(d: seq<real>, meanValue: Option<real>): (r: Result<real, StatError>)
    ensures r.Ok? <==> meanValue.Some? || |d| > 0
    ensures meanValue.Some? ==> r == Ok(meanValue.value)
    ensures meanValue.None? ==> r == MeanOf(d)
  {
    match meanValue
    case Some(v) => Ok(v)
    case None => MeanOf(d)
  }

  /** The variance, the square of what standard_deviation_of returns. It fails
      when the mean must be computed from an empty dataset or when the divisor
      is zero. A sample that is empty but comes with a mean has divisor -1 and
      a zero numerator, and so variance 0. */
  function VarianceOf(d: seq<real>, isSample: bool, meanValue: Option<real> := None): (r: Result<real, StatError>)
    ensures r.Ok? <==> Divisor(|d|, isSample) != 0 && (meanValue.Some? || |d| > 0)
    ensures r.Err? ==> r.error == ZeroDivision
    ensures r.Ok? ==> r.value * Divisor(|d|, isSample) as real
                      == SumSquaredDeviations(d, ResolveMean(d, meanValue).value)
  {
    var k := Divisor(|d|, isSample);
    match ResolveMean(d, meanValue)
    case Err(e) => Err(e)
    case Ok(m) =>
      if k == 0 then Err(ZeroDivision)
      else
        DivMulCancel(SumSquaredDeviations(d, m), k as real);
        Ok(SumSquaredDeviations(d, m) / k as real)
  }

  /** A variance, where defined, is never negative. */
  lemma {:induction false} VarianceNonNegative(d: seq<real>, isSample: bool, meanValue: Option<real>)
    ensures VarianceOf(d, isSample, meanValue).Ok? ==> VarianceOf(d, isSample, meanValue).value >= 0.0
  {
    var k := Divisor(|d|, isSample);
    if VarianceOf(d, isSample, meanValue).Ok? {
      var m := ResolveMean(d, meanValue).value;
      SumSquaredDeviationsNonNegative(d, m);
      QuotientNonNegative(SumSquaredDeviations(d, m), k as real);
    }
  }

  /** `root` returns the non-negative square root of every non-negative real. */
  ghost predicate IsSquareRoot(root: real -> real) {
    forall v :: 0.0 <= v ==> 0.0 <= root(v) && Square(root(v)) == v
  }

  /** The standard deviation: `root` of the variance. */
  function StandardDeviationOf(d: seq<real>, isSample: bool, root: real -> real, meanValue: Option<real> := None)
    : (r: Result<real, StatError>)
    ensures r.Ok? <==> VarianceOf(d, isSample, meanValue).Ok?
    ensures r.Err? ==> r.error == ZeroDivision
    ensures r.Ok? && IsSquareRoot(root)
      ==> r.value >= 0.0 && Square(r.value) == VarianceOf(d, isSample, meanValue).value
  {
    var v :- VarianceOf(d, isSample, meanValue);
    VarianceNonNegative(d, isSample, meanValue);
    Ok(root(v))
  }

  /** The standard deviation does not depend on which square root is used. */
  lemma {:induction false} StandardDeviationWellDefined(d: seq<real>, isSample: bool, meanValue: Option<real>,
                                     root1: real -> real, root2: real -> real)
    requires IsSquareRoot(root1) && IsSquareRoot(root2)
    ensures StandardDeviationOf(d, isSample, root1, meanValue) == StandardDeviationOf(d, isSample, root2, meanValue)
  {
    var r1 := StandardDeviationOf(d, isSample, root1, meanValue);
    var r2 := StandardDeviationOf(d, isSample, root2, meanValue);
    if r1.Ok? {
      SquareRootUnique(r1.value, r2.value);
    }
  }

  /** Supplying the mean of the data as `meanValue` gives what omitting it gives. */
  lemma {:induction false} SuppliedMeanChangesNothing(d: seq<real>, isSample: bool, m: real, root: real -> real)
    requires MeanOf(d) == Ok(m)
    ensures VarianceOf(d, isSample, Some(m)) == VarianceOf(d, isSample, None)
    ensures StandardDeviationOf(d, isSample, root, Some(m)) == StandardDeviationOf(d, isSample, root)
  {
  }

  /** Squared deviations measured from any point `c` exceed those measured
      from a point `m` the deviations balance at by |d| copies of the squared
      distance between the two. */
  lemma {:induction false} BalancePointMinimises(d: seq<real>, c: real, m: real)
    requires SumDeviations(d, m) == 0.0
    ensures SumSquaredDeviations(d, c) == SumSquaredDeviations(d, m) + |d| as real * Square(m - c)
  {
    SquaredDeviationsRecentre(d, c, m);
    ShiftTermsClosedForm(d, m, 2.0 * (m - c), Square(m - c));
    assert 2.0 * (m - c) * SumDeviations(d, m) == 0.0;
  }

  /** Squared deviations measured from any point `c` exceed those measured
      from the mean by |d| copies of the squared distance between the two. */
  lemma {:induction false} MeanMinimisesSquaredDeviations(d: seq<real>, c: real)
    requires |d| > 0
    ensures SumSquaredDeviations(d, c)
         == SumSquaredDeviations(d, MeanOf(d).value) + |d| as real * Square(MeanOf(d).value - c)
  {
    var m := MeanOf(d).value;
    assert SumDeviations(d, m) == 0.0 by {
      MeanBalancesDeviations(d, m);
    }
    BalancePointMinimises(d, c, m);
  }

  /** The squared deviations are least when measured from the mean, and only there. */
  lemma {:induction false} MeanUniquelyMinimises(d: seq<real>, c: real)
    requires |d| > 0
    ensures SumSquaredDeviations(d, c) >= SumSquaredDeviations(d, MeanOf(d).value)
    ensures SumSquaredDeviations(d, c) == SumSquaredDeviations(d, MeanOf(d).value) <==> MeanOf(d).value == c
  {
    var m := MeanOf(d).value;
    MeanMinimisesSquaredDeviations(d, c);
    ScaledSquare(|d| as real, m - c);
  }

  /** Supplying any other value than the mean makes the variance strictly larger. */
  lemma {:induction false} OtherMeanIncreasesVariance(d: seq<real>, isSample: bool, c: real)
    requires VarianceOf(d, isSample, None).Ok?
    ensures VarianceOf(d, isSample, Some(c)).Ok?
    ensures VarianceOf(d, isSample, Some(c)).value >= VarianceOf(d, isSample, None).value
    ensures VarianceOf(d, isSample, Some(c)).value == VarianceOf(d, isSample, None).value <==> MeanOf(d) == Ok(c)
  {
    var m := MeanOf(d).value;
    var vc, vm := VarianceOf(d, isSample, Some(c)).value, VarianceOf(d, isSample, None).value;
    var k := Divisor(|d|, isSample) as real;
    var sc, sm := SumSquaredDeviations(d, c), SumSquaredDeviations(d, m);
    assert k > 0.0 && vc * k == sc && vm * k == sm;
    assert sc >= sm && (sc == sm <==> m == c) by {
      MeanUniquelyMinimises(d, c);
    }
    QuotientOrder(vc, vm, k, sc, sm);
  }

  /** For more than one datum the sample variance is at least the population
      variance, and equal exactly when every datum equals the mean used. */
  lemma {:induction false} SampleAtLeastPopulation(d: seq<real>, meanValue: Option<real>)
    requires |d| > 1
    ensures VarianceOf(d, true, meanValue).Ok? && VarianceOf(d, false, meanValue).Ok?
    ensures VarianceOf(d, true, meanValue).value >= VarianceOf(d, false, meanValue).value
    ensures VarianceOf(d, true, meanValue).value == VarianceOf(d, false, meanValue).value
        <==> forall i :: 0 <= i < |d| ==> d[i] == meanValue.GetOr(MeanOf(d).value)
  {
    var m := meanValue.GetOr(MeanOf(d).value);
    var s := SumSquaredDeviations(d, m);
    SumSquaredDeviationsNonNegative(d, m);
    var n := |d| as real;
    assert Divisor(|d|, true) as real == n - 1.0;
    var vs := VarianceOf(d, true, meanValue).value;
    var vp := VarianceOf(d, false, meanValue).value;
    BesselGap(s, n, vs, vp);
    ZeroSpreadIffConstant(d, m);
  }

  /** The dataset [2, 4, 4, 4, 5, 5, 7, 9]: mean 5, squared deviations 32,
      sample variance 32/7 and population variance 4. */
  lemma ConcreteDataset()
    ensures MeanOf([2.0, 4.0, 4.0, 4.0, 5.0, 5.0, 7.0, 9.0]) == Ok(5.0)
    ensures SumSquaredDeviations([2.0, 4.0, 4.0, 4.0, 5.0, 5.0, 7.0, 9.0], 5.0) == 32.0
    ensures VarianceOf([2.0, 4.0, 4.0, 4.0, 5.0, 5.0, 7.0, 9.0], true, None) == Ok(32.0 / 7.0)
    ensures VarianceOf([2.0, 4.0, 4.0, 4.0, 5.0, 5.0, 7.0, 9.0], false, None) == Ok(4.0)
  {
    var d := [2.0, 4.0, 4.0, 4.0, 5.0, 5.0, 7.0, 9.0];
    assert Sum(d[7..]) == 9.0;
    assert Sum(d[6..]) == 16.0;
    assert Sum(d[5..]) == 21.0;
    assert Sum(d[4..]) == 26.0;
    assert Sum(d[3..]) == 30.0;
    assert Sum(d[2..]) == 34.0;
    assert Sum(d[1..]) == 38.0;
    assert Sum(d) == 40.0;
    assert SumSquaredDeviations(d[7..], 5.0) == 16.0;
    assert SumSquaredDeviations(d[6..], 5.0) == 20.0;
    assert SumSquaredDeviations(d[5..], 5.0) == 20.0;
    assert SumSquaredDeviations(d[4..], 5.0) == 20.0;
    assert SumSquaredDeviations(d[3..], 5.0) == 21.0;
    assert SumSquaredDeviations(d[2..], 5.0) == 22.0;
    assert SumSquaredDeviations(d[1..], 5.0) == 23.0;
    assert SumSquaredDeviations(d, 5.0) == 32.0;
  }

  /** The sample standard deviation of [2, 4, 4, 4, 5, 5, 7, 9] lies between
      2.138 and 2.139. */
  lemma ConcreteStandardDeviation(root: real -> real)
    requires IsSquareRoot(root)
    ensures StandardDeviationOf([2.0, 4.0, 4.0, 4.0, 5.0, 5.0, 7.0, 9.0], true, root).Ok?
    ensures 2.138 < StandardDeviationOf([2.0, 4.0, 4.0, 4.0, 5.0, 5.0, 7.0, 9.0], true, root).value < 2.139
  {
    ConcreteDataset();
    var s := StandardDeviationOf([2.0, 4.0, 4.0, 4.0, 5.0, 5.0, 7.0, 9.0], true, root).value;
    assert s >= 0.0 && Square(s) == 32.0 / 7.0;
    if s <= 2.138 {
      SquareMonotone(s, 2.138);
    }
    if s >= 2.139 {
      SquareMonotone(2.139, s);
    }
  }

  // ---------------------------------------------------------------------------
  // NormalDistribution
  // ---------------------------------------------------------------------------

  /** The parameters a NormalDistribution caches at construction. */
  datatype Normal = Normal(mean: real, std: real) {
    /** A standard deviation is never negative. */
    predicate Valid() {
      std >= 0.0
    }

    function Variance(): real {
      Square(std)
    }
  }

  /** The constructor: the mean of the data, then the standard deviation
      measured from that mean. The data are a sample unless said otherwise. */
  function NewNormal(d: seq<real>, root: real -> real, isSample: bool := true): (r: Result<Normal, StatError>)
    ensures r.Ok? <==> |d| > (if isSample then 1 else 0)
    ensures r.Err? ==> r.error == ZeroDivision
    ensures r.Ok? ==> r.value.mean * |d| as real == Sum(d)
    ensures r.Ok? ==> StandardDeviationOf(d, isSample, root) == Ok(r.value.std)
    ensures r.Ok? && IsSquareRoot(root)
      ==> r.value.Valid() && r.value.Variance() == VarianceOf(d, isSample, None).value
  {
    var mean :- MeanOf(d);
    SuppliedMeanChangesNothing(d, isSample, mean, root);
    var std :- StandardDeviationOf(d, isSample, root, Some(mean));
    Ok(Normal(mean, std))
  }

  /** The z-score of `x`; a zero standard deviation divides by zero. */
  function ZScore(g: Normal, x: real): (r: Result<real, StatError>)
    ensures r.Ok? <==> g.std != 0.0
    ensures r.Err? ==> r.error == ZeroDivision
    ensures r.Ok? ==> g.mean + r.value * g.std == x
  {
    if g.std == 0.0 then Err(ZeroDivision) else Ok((x - g.mean) / g.std)
  }

  /** The mean itself has z-score 0. */
  lemma {:induction false} ZScoreOfMean(g: Normal)
    requires g.std != 0.0
    ensures ZScore(g, g.mean) == Ok(0.0)
  {
  }

  /** With a positive standard deviation the z-score preserves order. */
  lemma {:induction false} ZScoreMonotone(g: Normal, x: real, y: real)
    requires g.std > 0.0 && x < y
    ensures ZScore(g, x).value < ZScore(g, y).value
  {
  }

  /** The distribution of the sum of two independent normals: the means add
      and the variances add. */
  function Add(a: Normal, b: Normal, root: real -> real): (r: Normal)
    ensures r.mean == a.mean + b.mean
    ensures IsSquareRoot(root) ==> r.Valid() && r.Variance() == a.Variance() + b.Variance()
  {
    SquareNonNegative(a.std);
    SquareNonNegative(b.std);
    Normal(a.mean + b.mean, root(Square(a.std) + Square(b.std)))
  }

  /** Adding independent normals is commutative. */
  lemma {:induction false} AddCommutative(a: Normal, b: Normal, root: real -> real)
    ensures Add(a, b, root) == Add(b, a, root)
  {
  }

  /** Adding independent normals is associative. */
  lemma {:induction false} AddAssociative(a: Normal, b: Normal, c: Normal, root: real -> real)
    requires IsSquareRoot(root)
    ensures Add(Add(a, b, root), c, root) == Add(a, Add(b, c, root), root)
  {
  }

  /** The sum of two standard normals has mean 0 and standard deviation sqrt 2. */
  lemma AddStandardNormals(root: real -> real)
    requires IsSquareRoot(root)
    ensures Add(Normal(0.0, 1.0), Normal(0.0, 1.0), root).mean == 0.0
    ensures Add(Normal(0.0, 1.0), Normal(0.0, 1.0), root).std >= 0.0
    ensures Add(Normal(0.0, 1.0), Normal(0.0, 1.0), root).Variance() == 2.0
  {
  }

  /** What a NormalDistribution constructor can receive as its dataset. */
  datatype DatasetArg = Dataset(values: seq<real>) | Scalar(x: real)

  /** The constructor over either kind of argument: summing a bare number
      fails. */
  function NewNormalFrom(arg: DatasetArg, root: real -> real, isSample: bool := true): (r: Result<Normal, StatError>)
    ensures arg.Scalar? ==> r == Err(NotIterable)
    ensures arg.Dataset? ==> r == NewNormal(arg.values, root, isSample)
  {
    match arg
    case Dataset(d) => NewNormal(d, root, isSample)
    case Scalar(_) => Err(NotIterable)
  }

  /** Addition as the source writes it: the combined mean goes in as the
      dataset and the combined standard deviation as the sample flag (a
      number is true when it is non-zero), so it never yields a distribution. */
  function AddAsWritten(a: Normal, b: Normal, root: real -> real): (r: Result<Normal, StatError>)
    ensures r == Err(NotIterable)
  {
    var mean := a.mean + b.mean;
    var std := root(Square(a.std) + Square(b.std));
    NewNormalFrom(Scalar(mean), root, std != 0.0)
  }

  /** Two standard normals: the as-written addition fails where the closed
      form gives mean 0 and variance 2. */
  lemma AddAsWrittenFails(root: real -> real)
    requires IsSquareRoot(root)
    ensures AddAsWritten(Normal(0.0, 1.0), Normal(0.0, 1.0), root) == Err(NotIterable)
    ensures Add(Normal(0.0, 1.0), Normal(0.0, 1.0), root).Variance() == 2.0
  {
  }
}
