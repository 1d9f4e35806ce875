/**
 * The value arithmetic the second-generation formatters share: the unseeded
 * `reduce` that totals a series, and the rescale to percentages that the
 * stacked-bar and mixed formatters apply under the PERCENTAGE display.
 */
module Series {
  import opened Js
  import opened Types

  /** The sum of non-negative values, folded from the left like `reduce`. */
  function SumNat(values: seq<nat>): nat
  {
    if values == [] then 0 else SumNat(values[..|values| - 1]) + values[|values| - 1]
  }

  /** `values.reduce((prev, curr) => prev + curr)`: without a seed an empty array throws. */
  function Total(values: seq<nat>): (r: Result<nat>)
    ensures r.Throw? <==> values == []
    ensures r.Throw? ==> r.error == ReduceOfEmptyArray
  {
    if values == [] then Throw(ReduceOfEmptyArray) else Ok(SumNat(values))
  }

  /**
   * The position of the first empty series, or the number of series when
   * none is empty: where a `map` that totals every series with an unseeded
   * `reduce` throws.
   */
  function FirstEmpty<T>(series: seq<seq<T>>): (k: nat)
    ensures k <= |series|
    ensures k < |series| ==> series[k] == []
    ensures forall j :: 0 <= j < k ==> series[j] != []
  {
    if series == [] then 0
    else if series[0] == [] then 0
    else 1 + FirstEmpty(series[1..])
  }

  function Min(a: nat, b: nat): nat { if a < b then a else b }

  /** The value series of every payload. */
  function ValuesOf(rsp: seq<SeriesPayload>): (vs: seq<seq<nat>>)
    ensures |vs| == |rsp|
  {
    seq(|rsp|, i requires 0 <= i < |rsp| => rsp[i].data.values)
  }

  /** `(value / total) * 100`: NaN when the total is zero (every value is then zero). */
  function PercentOf(value: nat, total: nat): Num
  {
    if total == 0 then NaN else Finite(value as real / total as real * 100.0)
  }

  /** A series as the datasets carry it: percentages under PERCENTAGE, the raw values otherwise. */
  function Scaled(values: seq<nat>, mode: DisplayFormatter): (data: seq<Num>)
    ensures |data| == |values|
  {
    var total := SumNat(values);
    seq(|values|, j requires 0 <= j < |values| =>
      if mode == Percentage then PercentOf(values[j], total) else Finite(values[j] as real))
  }

  /** A series element as non-negative data has it: a non-negative number or NaN. */
  predicate NonNegative(data: seq<Num>)
  {
    forall j :: 0 <= j < |data| ==> data[j].NaN? || data[j].r >= 0.0
  }

  /** The sum of numbers, folded from the left; NaN once any term is NaN. */
  function SumNum(data: seq<Num>): Num
  {
    if data == [] then Finite(0.0)
    else match (SumNum(data[..|data| - 1]), data[|data| - 1])
      case (Finite(a), Finite(b)) => Finite(a + b)
      case _ => NaN
  }

  /**
   * `(100 * value) / total`. On non-negative data a zero total means that
   * every value is zero, and 0 / 0 is NaN.
   */
  function ScaleBy(value: Num, total: Num): Num
  {
    match (value, total)
    case (Finite(a), Finite(t)) => if t == 0.0 then NaN else Finite(100.0 * a / t)
    case _ => NaN
  }

  /** `data.map(value => (100 * value) / total)` with `total` the sum of `data`. */
  function Rescale(data: seq<Num>): (r: seq<Num>)
    ensures |r| == |data|
  {
    var total := SumNum(data);
    seq(|data|, j requires 0 <= j < |data| => ScaleBy(data[j], total))
  }

  /** Non-negative data that sums to zero holds only zeros, so no division by zero of a non-zero value happens. */
  lemma {:induction false} ZeroTotalMeansZeros(data: seq<Num>)
    requires NonNegative(data) && SumNum(data) == Finite(0.0)
    ensures forall j :: 0 <= j < |data| ==> data[j] == Finite(0.0)
  {
    if data != [] {
      var init := data[..|data| - 1];
      assert NonNegative(init) by {
        forall j | 0 <= j < |init| ensures init[j].NaN? || init[j].r >= 0.0 { assert init[j] == data[j]; }
      }
      SumNumNonNegative(init);
      ZeroTotalMeansZeros(init);
      forall j | 0 <= j < |init| ensures data[j] == Finite(0.0) { assert init[j] == data[j]; }
    }
  }

  lemma {:induction false} SumNumNonNegative(data: seq<Num>)
    requires NonNegative(data)
    ensures SumNum(data).NaN? || SumNum(data).r >= 0.0
  {
    if data != [] {
      var init := data[..|data| - 1];
      assert NonNegative(init) by {
        forall j | 0 <= j < |init| ensures init[j].NaN? || init[j].r >= 0.0 { assert init[j] == data[j]; }
      }
      SumNumNonNegative(init);
    }
  }

  /** Data built from values is non-negative. */
  lemma ScaledNonNegative(values: seq<nat>, mode: DisplayFormatter)
    ensures NonNegative(Scaled(values, mode))
  {
  }

  /** Each value times the factor `p`. */
  function ScaledBy(values: seq<nat>, p: real): (data: seq<Num>)
    ensures |data| == |values|
  {
    seq(|values|, j requires 0 <= j < |values| => Finite(values[j] as real * p))
  }

  /** Summing values scaled by a common factor scales their sum by it. */
  lemma {:induction false} SumOfScaledBy(values: seq<nat>, p: real)
    ensures SumNum(ScaledBy(values, p)) == Finite(SumNat(values) as real * p)
  {
    var s := ScaledBy(values, p);
    if values != [] {
      var init := values[..|values| - 1];
      SumOfScaledBy(init, p);
      forall j | 0 <= j < |init| ensures s[..|s| - 1][j] == ScaledBy(init, p)[j] {
        assert init[j] == values[j];
      }
      assert s[..|s| - 1] == ScaledBy(init, p);
      assert (SumNat(init) as real) * p + (values[|values| - 1] as real) * p
          == (SumNat(init) + values[|values| - 1]) as real * p;
    }
  }

  /** A series that is all NaN sums to NaN. */
  lemma {:induction false} SumNumNaN(data: seq<Num>)
    requires data != [] && forall j :: 0 <= j < |data| ==> data[j] == NaN
    ensures SumNum(data) == NaN
  {
  }

  /** With a positive total, the percentages are the values times 100 / total, and they sum to 100. */
  lemma PercentagesSumTo100(values: seq<nat>)
    requires SumNat(values) > 0
    ensures Scaled(values, Percentage) == ScaledBy(values, 100.0 / SumNat(values) as real)
    ensures SumNum(Scaled(values, Percentage)) == Finite(100.0)
  {
    var t := SumNat(values) as real;
    PercentagesAreScaledBy(values);
    SumOfScaledBy(values, 100.0 / t);
    PercentAsFactor(t, t);
  }

  /** With a positive total, each percentage is its value times 100 / total. */
  lemma PercentagesAreScaledBy(values: seq<nat>)
    requires SumNat(values) > 0
    ensures Scaled(values, Percentage) == ScaledBy(values, 100.0 / SumNat(values) as real)
  {
    var t := SumNat(values) as real;
    var p := 100.0 / t;
    forall j | 0 <= j < |values|
      ensures Scaled(values, Percentage)[j] == ScaledBy(values, p)[j]
    {
      PercentAsFactor(values[j] as real, t);
    }
  }

  /** `a / t * 100` is `a` times the common factor `100 / t`. */
  lemma PercentAsFactor(a: real, t: real)
    requires t > 0.0
    ensures a / t * 100.0 == a * (100.0 / t)
    ensures t * (100.0 / t) == 100.0
  {
  }

  /**
   * Rescaling percentages again leaves them unchanged: the rescale of a
   * series is a fixed point of the rescale (ideal reals). This is why
   * `init`, which rescales twice, shows what `update`, which rescales once,
   * shows.
   */
  lemma PercentagesAreFixedPoint(values: seq<nat>)
    ensures Rescale(Scaled(values, Percentage)) == Scaled(values, Percentage)
  {
    var data := Scaled(values, Percentage);
    if values == [] {
    } else if SumNat(values) == 0 {
      assert forall j :: 0 <= j < |data| ==> data[j] == NaN;
      SumNumNaN(data);
    } else {
      PercentagesSumTo100(values);
      forall j | 0 <= j < |data| ensures ScaleBy(data[j], Finite(100.0)) == data[j] {
        assert data[j].Finite?;
      }
    }
  }

  /** The rescale of raw values gives the same percentages that `buildDatasets` computes. */
  lemma RescaleOfRawIsPercentage(values: seq<nat>)
    ensures Rescale(Scaled(values, None)) == Scaled(values, Percentage)
  {
    var data := Scaled(values, None);
    var total := SumNat(values);
    assert data == ScaledBy(values, 1.0);
    SumOfScaledBy(values, 1.0);
    forall j | 0 <= j < |values| ensures Rescale(data)[j] == Scaled(values, Percentage)[j] {
      if total == 0 {
        SumNatZero(values, j);
      }
    }
  }

  lemma {:induction false} SumNatZero(values: seq<nat>, j: nat)
    requires j < |values| && SumNat(values) == 0
    ensures values[j] == 0
  {
    if j < |values| - 1 {
      SumNatZero(values[..|values| - 1], j);
    }
  }

  /** Every value is at most the sum of its series. */
  lemma {:induction false} ElementAtMostSum(values: seq<nat>, j: nat)
    requires j < |values|
    ensures values[j] <= SumNat(values)
  {
    if j < |values| - 1 {
      ElementAtMostSum(values[..|values| - 1], j);
    }
  }
}
