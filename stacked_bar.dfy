/**
 * The stacked-bar formatter
 * (src/formatters/charts/StackedBarWidgetFormatter.tsx): one bar dataset per
 * payload, coloured by position in the palette, with the values turned into
 * percentages of their series under the PERCENTAGE display; `init` passes the
 * datasets once more through `formatDataByDisplay`, which rescales them in
 * place.
 */
module StackedBar {
  import opened Js
  import opened Types
  import opened Utils
  import opened Series

  /** A bar dataset: the series label, its palette colour (undefined past the twelfth) and its data. */
  datatype BarDataset = BarDataset(seriesLabel: string, backgroundColor: Maybe<string>, data: seq<Num>)

  /** `{datasets, labels}` as `buildDatasets` returns it. */
  datatype Built = Built(datasets: seq<BarDataset>, labels: seq<string>)

  /** The dataset made from the payload at position `index`. */
  function DatasetOf(payload: SeriesPayload, index: nat, mode: DisplayFormatter): BarDataset
  {
    BarDataset(payload.data.seriesLabel, PaletteAt(index), Scaled(payload.data.values, mode))
  }

  /**
   * What `buildDatasets` yields: it throws at the first payload with no
   * values (the unseeded `reduce`), then, with no payload at all, on reading
   * the first payload's keys; otherwise one dataset per payload and the first
   * payload's keys as labels.
   */
  function BarDatasets(rsp: seq<SeriesPayload>, mode: DisplayFormatter): Result<Built>
  {
    if FirstEmpty(ValuesOf(rsp)) < |rsp| then Throw(ReduceOfEmptyArray)
    else if rsp == [] then Throw(UndefinedProperty)
    else Ok(Built(seq(|rsp|, i requires 0 <= i < |rsp| => DatasetOf(rsp[i], i, mode)), rsp[0].data.keys))
  }

  /** `buildDatasets`: maps the payloads in order while counting them with `index`. */
  method BuildDatasets(rsp: seq<SeriesPayload>, mode: DisplayFormatter) returns (r: Result<Built>)
    ensures r == BarDatasets(rsp, mode)
  {
    var index := 0;
    var datasets: seq<BarDataset> := [];
    for k := 0 to |rsp|
      invariant index == k
      invariant datasets == seq(k, i requires 0 <= i < k => DatasetOf(rsp[i], i, mode))
      invariant forall j :: 0 <= j < k ==> rsp[j].data.values != []
    {
      var payload := rsp[k];
      var total := Total(payload.data.values);
      if total.Throw? {
        assert ValuesOf(rsp)[k] == [];
        return Throw(total.error);
      }
      datasets := datasets + [BarDataset(payload.data.seriesLabel, PaletteAt(index), Scaled(payload.data.values, mode))];
      index := index + 1;
    }
    if rsp == [] {
      return Throw(UndefinedProperty);
    }
    assert forall j :: 0 <= j < |rsp| ==> ValuesOf(rsp)[j] != [];
    r := Ok(Built(datasets, rsp[0].data.keys));
  }

  /**
   * The built datasets: one per payload, in order, with the payload's label
   * and palette colour `i` (defined exactly for the first twelve); under NONE
   * and RAW the data are the values themselves, under PERCENTAGE they are the
   * values' shares of their series, summing to 100 whenever the series is
   * not all zero.
   */
  lemma BarDatasetsMeaning(rsp: seq<SeriesPayload>, mode: DisplayFormatter, i: nat)
    requires BarDatasets(rsp, mode).Ok? && i < |rsp|
    ensures var ds := BarDatasets(rsp, mode).value.datasets;
      && |ds| == |rsp| && rsp[i].data.values != []
      && ds[i].seriesLabel == rsp[i].data.seriesLabel
      && (ds[i].backgroundColor.Defined? <==> i < 12)
      && (i < 12 ==> ds[i].backgroundColor.value == ColorPalette()[i])
      && |ds[i].data| == |rsp[i].data.values|
      && (mode != Percentage ==> forall j :: 0 <= j < |ds[i].data| ==> ds[i].data[j] == Finite(rsp[i].data.values[j] as real))
      && (mode == Percentage && SumNat(rsp[i].data.values) > 0 ==> SumNum(ds[i].data) == Finite(100.0))
  {
    assert ValuesOf(rsp)[i] == rsp[i].data.values;
    if mode == Percentage && SumNat(rsp[i].data.values) > 0 {
      PercentagesSumTo100(rsp[i].data.values);
    }
  }

  // ---------------------------------------------------------------------
  // formatDataByDisplay.
  // ---------------------------------------------------------------------

  /** The data series of every dataset. */
  function DataOf(ds: seq<BarDataset>): (data: seq<seq<Num>>)
    ensures |data| == |ds|
  {
    seq(|ds|, i requires 0 <= i < |ds| => ds[i].data)
  }

  /** One dataset after `formatDataByDisplay`: rescaled under PERCENTAGE, untouched otherwise. */
  function FormatDataset(d: BarDataset, mode: DisplayFormatter): BarDataset
  {
    if mode == Percentage then d.(data := Rescale(d.data)) else d
  }

  /** The datasets with the first `n` formatted and the rest as they were. */
  function FormatPrefix(ds: seq<BarDataset>, mode: DisplayFormatter, n: nat): (r: seq<BarDataset>)
    ensures |r| == |ds|
  {
    seq(|ds|, j requires 0 <= j < |ds| => if j < n then FormatDataset(ds[j], mode) else ds[j])
  }

  /**
   * `formatDataByDisplay`: totals every dataset's data (throwing at the first
   * empty one, after the earlier ones have been rewritten) and, under
   * PERCENTAGE, replaces the data by `(100 * value) / total`.
   */
  method FormatDataByDisplay(datasets: array<BarDataset>, mode: DisplayFormatter) returns (outcome: Outcome, result: array<BarDataset>)
    requires forall i :: 0 <= i < datasets.Length ==> NonNegative(datasets[i].data)
    modifies datasets
    ensures result == datasets
    ensures var k := FirstEmpty(DataOf(old(datasets[..])));
      && (outcome.Failed? <==> k < datasets.Length)
      && (outcome.Failed? ==> outcome.error == ReduceOfEmptyArray)
      && datasets[..] == FormatPrefix(old(datasets[..]), mode, k)
    ensures forall i :: 0 <= i < datasets.Length ==>
      && |datasets[i].data| == |old(datasets[i].data)|
      && datasets[i].seriesLabel == old(datasets[i].seriesLabel)
      && datasets[i].backgroundColor == old(datasets[i].backgroundColor)
    ensures mode != Percentage ==> datasets[..] == old(datasets[..])
  {
    result := datasets;
    ghost var before := datasets[..];
    for i := 0 to datasets.Length
      invariant forall j :: 0 <= j < i ==> before[j].data != []
      invariant datasets[..] == FormatPrefix(before, mode, i)
    {
      var dataset := datasets[i];
      if dataset.data == [] {
        assert DataOf(before)[i] == [];
        assert forall j :: 0 <= j < i ==> DataOf(before)[j] != [];
        outcome := Failed(ReduceOfEmptyArray);
        return;
      }
      var total := SumNum(dataset.data);
      if mode == Percentage {
        var rescaled := seq(|dataset.data|, j requires 0 <= j < |dataset.data| => ScaleBy(dataset.data[j], total));
        assert rescaled == Rescale(dataset.data);
        datasets[i] := dataset.(data := rescaled);
      }
      assert datasets[..] == FormatPrefix(before, mode, i + 1) by {
        forall j | 0 <= j < datasets.Length ensures datasets[j] == FormatPrefix(before, mode, i + 1)[j] {
        }
      }
    }
    assert forall j :: 0 <= j < datasets.Length ==> DataOf(before)[j] != [];
    outcome := Done;
  }

  /**
   * Formatting the built datasets changes nothing: they hold no empty
   * series, and percentages of a series are already their own rescale. So
   * `init`, which formats its datasets a second time, shows the same data as
   * `update`, which does not.
   */
  lemma FormatBuiltIsIdentity(rsp: seq<SeriesPayload>, mode: DisplayFormatter)
    requires BarDatasets(rsp, mode).Ok?
    ensures var ds := BarDatasets(rsp, mode).value.datasets;
      FirstEmpty(DataOf(ds)) == |ds| && FormatPrefix(ds, mode, |ds|) == ds
  {
    var ds := BarDatasets(rsp, mode).value.datasets;
    forall j | 0 <= j < |ds| ensures DataOf(ds)[j] != [] {
      assert ValuesOf(rsp)[j] != [];
      assert ds[j] == DatasetOf(rsp[j], j, mode);
    }
    forall j | 0 <= j < |ds| ensures FormatDataset(ds[j], mode) == ds[j] {
      if mode == Percentage {
        PercentagesAreFixedPoint(rsp[j].data.values);
      }
    }
  }

  /** Built datasets carry non-negative data, as `formatDataByDisplay` expects. */
  lemma BuiltNonNegative(rsp: seq<SeriesPayload>, mode: DisplayFormatter)
    requires BarDatasets(rsp, mode).Ok?
    ensures var ds := BarDatasets(rsp, mode).value.datasets;
      forall i :: 0 <= i < |ds| ==> NonNegative(ds[i].data)
  {
    var ds := BarDatasets(rsp, mode).value.datasets;
    forall i | 0 <= i < |ds| ensures NonNegative(ds[i].data) {
      ScaledNonNegative(rsp[i].data.values, mode);
    }
  }

  // ---------------------------------------------------------------------
  // Axis ticks and tooltips (shared verbatim by the mixed chart).
  // ---------------------------------------------------------------------

  /** The y-axis tick text: the value and a percent sign, or the value with thousands separators. */
  function TickText(mode: DisplayFormatter, value: int): string
  {
    if mode == Percentage then IntToString(value) + "%" else FormatInt(Defined(value))
  }

  /** Under PERCENTAGE the tick is the decimal value and "%"; otherwise removing the commas gives the decimal value back. */
  lemma TickTextMeaning(mode: DisplayFormatter, value: int)
    ensures var t := TickText(mode, value);
      && (mode == Percentage ==> |t| >= 2 && t[|t| - 1] == '%' && t[..|t| - 1] == IntToString(value))
      && (mode != Percentage ==> StripCommas(t) == IntToString(value) && (',' in t <==> value <= -1000 || 1000 <= value))
  {
    if mode != Percentage {
      FormatIntStripsToDecimal(value);
      FormatIntComma(value);
    } else {
      var t := TickText(mode, value);
      assert t[..|t| - 1] == IntToString(value);
    }
  }

  /** `parseInt` of a number's decimal text: the integer part, truncated toward zero. */
  function Truncate(x: real): int
  {
    if x >= 0.0 then x.Floor else -((-x).Floor)
  }

  /** `parseFloat(text).toFixed(2)`: "NaN" for NaN. */
  function Fixed2Text(value: Num, fixed2: real -> string): string
  {
    if value.NaN? then "NaN" else fixed2(value.r)
  }

  /**
   * The tooltip of a bar: the dataset's label and the value in parentheses,
   * as a two-decimal percentage under PERCENTAGE and with thousands
   * separators otherwise (the guard `value !== NaN` always holds, so the
   * suffix is always present).
   */
  function SeriesTooltip(seriesLabel: string, value: Num, mode: DisplayFormatter, fixed2: real -> string): string
  {
    var suffix :=
      if mode == Percentage then ": (" + Fixed2Text(value, fixed2) + "%)"
      else ": (" + (if value.NaN? then "NaN" else FormatInt(Defined(Truncate(value.r)))) + ")";
    seriesLabel + suffix
  }

  /** For a raw count `n` the tooltip is the label, ": (", `n` with separators, ")"; stripping the separators gives `n`. */
  lemma SeriesTooltipRaw(seriesLabel: string, n: nat, mode: DisplayFormatter, fixed2: real -> string)
    requires mode != Percentage
    ensures var t := SeriesTooltip(seriesLabel, Finite(n as real), mode, fixed2);
      && t == seriesLabel + (": (" + FormatInt(Defined(n)) + ")")
      && StripCommas(FormatInt(Defined(n))) == NatToString(n)
  {
    TruncateWhole(n);
    FormatIntStripsToDecimal(n);
    assert IntToString(n) == NatToString(n);
  }

  /** `parseInt` gives back a whole number unchanged. */
  lemma TruncateWhole(n: int)
    ensures Truncate(n as real) == n
  {
    if n < 0 {
      assert (-(n as real)).Floor == -n;
    } else {
      assert (n as real).Floor == n;
    }
  }

  /** Under PERCENTAGE the tooltip ends with "%)" whatever the value. */
  lemma SeriesTooltipPercentage(seriesLabel: string, value: Num, fixed2: real -> string)
    ensures var t := SeriesTooltip(seriesLabel, value, Percentage, fixed2);
      |t| >= |seriesLabel| + 5 && t[..|seriesLabel|] == seriesLabel && t[|t| - 2..] == "%)"
  {
  }

  // ---------------------------------------------------------------------
  // The formatter object.
  // ---------------------------------------------------------------------

  class StackedBarWidgetFormatter {
    /** `_chart`: null until `init` has run. */
    var chart: Chart?<BarDataset>

    constructor ()
      ensures chart == null
    {
      chart := null;
    }

    /** `init`: builds the datasets, formats them by display mode and creates the chart. */
    method Init(rsp: seq<SeriesPayload>, mode: DisplayFormatter) returns (outcome: Outcome)
      modifies this
      ensures outcome.Failed? <==> BarDatasets(rsp, mode).Throw?
      ensures outcome.Failed? ==> outcome.error == BarDatasets(rsp, mode).error && chart == old(chart)
      ensures outcome.Done? ==> (chart != null && fresh(chart)
        && chart.datasets == BarDatasets(rsp, mode).value.datasets && chart.labels == rsp[0].data.keys)
    {
      var built := BuildDatasets(rsp, mode);
      if built.Throw? {
        return Failed(built.error);
      }
      var ds := built.value.datasets;
      var datasets := new BarDataset[|ds|](i requires 0 <= i < |ds| => ds[i]);
      assert datasets[..] == ds;
      BuiltNonNegative(rsp, mode);
      FormatBuiltIsIdentity(rsp, mode);
      var formatted;
      outcome, formatted := FormatDataByDisplay(datasets, mode);
      chart := new Chart(formatted[..], built.value.labels);
    }

    /**
     * `update`: throws "The chart has not been initialized!" before `init`;
     * otherwise replaces the chart's datasets and labels with a fresh build.
     */
    method Update(rsp: seq<SeriesPayload>, mode: DisplayFormatter) returns (outcome: Outcome)
      modifies chart
      ensures old(chart) == null ==> outcome == Failed(NotInitialized)
      ensures old(chart) != null && BarDatasets(rsp, mode).Throw? ==> (outcome == Failed(BarDatasets(rsp, mode).error)
        && chart.datasets == old(chart.datasets) && chart.labels == old(chart.labels))
      ensures old(chart) != null && BarDatasets(rsp, mode).Ok? ==> (outcome == Done
        && chart.datasets == BarDatasets(rsp, mode).value.datasets && chart.labels == rsp[0].data.keys)
    {
      if chart == null {
        return Failed(NotInitialized);
      }
      var built := BuildDatasets(rsp, mode);
      if built.Throw? {
        return Failed(built.error);
      }
      chart.datasets := built.value.datasets;
      chart.labels := built.value.labels;
      outcome := Done;
    }
  }
}
