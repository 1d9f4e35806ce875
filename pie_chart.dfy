/**
 * The second-generation pie formatter
 * (src/formatters/charts/PieWidgetFormatter.tsx): one dataset from the first
 * payload coloured by the fixed palette, an HTML legend of at most five
 * entries, a tooltip per slice, and an `update` that refuses to run before
 * `init`.
 */
module PieChart {
  import opened Js
  import opened Types
  import opened Utils
  import opened Series

  /** `{datasets, labels}` as `buildDatasets` returns it. */
  datatype Built = Built(datasets: seq<PieDataset>, labels: seq<string>)

  /**
   * `buildDatasets`: reads the first payload only; with no payload at all,
   * `restResponse[0].data` throws.
   */
  function BuildDatasets(rsp: seq<SeriesPayload>): (r: Result<Built>)
    ensures r.Throw? <==> rsp == []
    ensures r.Throw? ==> r.error == UndefinedProperty
    ensures r.Ok? ==> |r.value.datasets| == 1 && r.value.labels == rsp[0].data.keys
    ensures r.Ok? ==> (r.value.datasets[0].data == rsp[0].data.values
      && r.value.datasets[0].seriesLabel == rsp[0].data.seriesLabel
      && r.value.datasets[0].backgroundColor == ColorPalette())
  {
    if rsp == [] then Throw(UndefinedProperty)
    else
      var first := rsp[0].data;
      Ok(Built([PieDataset(first.values, first.seriesLabel, ColorPalette())], first.keys))
  }

  /** Payloads after the first do not influence the pie. */
  lemma BuildDatasetsFirstOnly(rsp: seq<SeriesPayload>, other: seq<SeriesPayload>)
    requires rsp != [] && other != [] && rsp[0] == other[0]
    ensures BuildDatasets(rsp) == BuildDatasets(other)
  {
  }

  // ---------------------------------------------------------------------
  // legendCallback.
  // ---------------------------------------------------------------------

  /** The tags that open and close the legend list. */
  const LegendOpen: string := "<ul class=\"pie-legend\">"
  const LegendClose: string := "</ul>"

  /** At most this many labels appear in the legend. */
  function MaxLabels(): nat { 5 }

  /** The value shown after a legend label under each display mode. */
  function LegendSuffix(mode: DisplayFormatter, values: seq<nat>, i: nat, total: nat, fixed2: real -> string): string
  {
    match mode
    case None => ""
    case Percentage => " (<b>" + (if i < |values| then PercentText(values[i], total, fixed2) else "NaN") + "%</b>)"
    case Raw => " (<b>" + (if i < |values| then IntToString(values[i]) else "undefined") + "</b>)"
  }

  /** In percentage mode each legend entry shows its slice's share of the series total, between 0 and 100. */
  lemma LegendPercentInRange(values: seq<nat>, i: nat, fixed2: real -> string)
    requires i < |values| && 0 < SumNat(values)
    ensures exists p: real ::
      0.0 <= p <= 100.0 && LegendSuffix(Percentage, values, i, SumNat(values), fixed2) == " (<b>" + fixed2(p) + "%</b>)"
  {
    ElementAtMostSum(values, i);
    var t := PercentText(values[i], SumNat(values), fixed2);
    var p: real :| 0.0 <= p <= 100.0 && t == fixed2(p);
    assert LegendSuffix(Percentage, values, i, SumNat(values), fixed2) == " (<b>" + fixed2(p) + "%</b>)";
  }

  /** The three pieces pushed for legend entry `i`. */
  function LegendEntry(color: string, text: string, suffix: string): seq<string>
  {
    ["<li>", "<span class='circle' style='background-color: " + color + "'></span> " + text + suffix, "</li>"]
  }

  /** The pieces of legend entry `i`. */
  function EntryAt(colors: seq<string>, labels: seq<string>, values: seq<nat>, total: nat,
                   mode: DisplayFormatter, fixed2: real -> string, i: nat): (entry: seq<string>)
    ensures |entry| == 3
  {
    LegendEntry(TextOf(colors, i), TextOf(labels, i), LegendSuffix(mode, values, i, total, fixed2))
  }

  /** The first `n` legend entries, each as its three pieces. */
  function Entries(colors: seq<string>, labels: seq<string>, values: seq<nat>, total: nat,
                   mode: DisplayFormatter, fixed2: real -> string, n: nat): seq<seq<string>>
  {
    seq(n, EntryFn(colors, labels, values, total, mode, fixed2))
  }

  /** `EntryAt` as a function of the entry index. */
  function EntryFn(colors: seq<string>, labels: seq<string>, values: seq<nat>, total: nat,
                   mode: DisplayFormatter, fixed2: real -> string): int --> seq<string>
  {
    k requires 0 <= k => EntryAt(colors, labels, values, total, mode, fixed2, k)
  }

  /** The legend's `text` array: the list element around the first min(5, |labels|) entries. */
  function LegendPieces(colors: seq<string>, labels: seq<string>, values: seq<nat>,
                        mode: DisplayFormatter, fixed2: real -> string): Result<seq<string>>
  {
    match Total(values)
    case Throw(e) => Throw(e)
    case Ok(total) =>
      Ok([LegendOpen]
         + Join(Entries(colors, labels, values, total, mode, fixed2, Min(MaxLabels(), |labels|)))
         + [LegendClose])
  }

  /** Concatenation of pieces, as `text.join('')` does for strings. */
  function Join<T>(pieces: seq<seq<T>>): seq<T>
  {
    if pieces == [] then [] else Join(pieces[..|pieces| - 1]) + pieces[|pieces| - 1]
  }

  /** Joining blocks of three pieces puts block `i` at positions 3i to 3i + 2. */
  lemma {:induction false} JoinBlockAt<T>(blocks: seq<seq<T>>, i: nat)
    requires forall k :: 0 <= k < |blocks| ==> |blocks[k]| == 3
    requires i < |blocks|
    ensures |Join(blocks)| == 3 * |blocks|
    ensures Join(blocks)[3 * i..3 * i + 3] == blocks[i]
  {
    var n := |blocks|;
    var prev := blocks[..n - 1];
    if i < n - 1 {
      JoinBlockAt(prev, i);
    } else if n > 1 {
      JoinBlockAt(prev, 0);
    }
    assert Join(blocks) == Join(prev) + blocks[n - 1];
    assert |Join(prev)| == 3 * (n - 1) by {
      if n == 1 { assert prev == []; }
    }
    if i < n - 1 {
      assert Join(blocks)[3 * i..3 * i + 3] == Join(prev)[3 * i..3 * i + 3];
    } else {
      assert Join(blocks)[3 * i..3 * i + 3] == blocks[n - 1];
    }
  }

  /** Appending a block appends its pieces. */
  lemma JoinSnoc<T>(blocks: seq<seq<T>>, block: seq<T>)
    ensures Join(blocks + [block]) == Join(blocks) + block
  {
    assert (blocks + [block])[..|blocks|] == blocks;
  }

  /** The pieces of the first `n + 1` entries extend those of the first `n` by entry `n`. */
  lemma EntriesSnoc(colors: seq<string>, labels: seq<string>, values: seq<nat>, total: nat,
                    mode: DisplayFormatter, fixed2: real -> string, n: nat)
    ensures Join(Entries(colors, labels, values, total, mode, fixed2, n + 1))
         == Join(Entries(colors, labels, values, total, mode, fixed2, n)) + EntryAt(colors, labels, values, total, mode, fixed2, n)
  {
    var es := Entries(colors, labels, values, total, mode, fixed2, n);
    var entry := EntryAt(colors, labels, values, total, mode, fixed2, n);
    SeqSnoc(EntryFn(colors, labels, values, total, mode, fixed2), n);
    JoinSnoc(es, entry);
  }

  /** A sequence built from the first `n + 1` values of `f` extends the one built from the first `n`. */
  lemma SeqSnoc<T>(f: int --> T, n: nat)
    requires forall k :: 0 <= k <= n ==> f.requires(k)
    ensures seq(n + 1, f) == seq(n, f) + [f(n)]
  {
    forall k | 0 <= k < n + 1
      ensures seq(n + 1, f)[k] == (seq(n, f) + [f(n)])[k]
    {
    }
  }

  /** Pushing the three pieces of entry `i` after the first `i` entries gives the first `i + 1`. */
  lemma LegendStep(colors: seq<string>, labels: seq<string>, values: seq<nat>, total: nat,
                   mode: DisplayFormatter, fixed2: real -> string, i: nat, text: seq<string>, entry: seq<string>)
    requires text == [LegendOpen] + Join(Entries(colors, labels, values, total, mode, fixed2, i))
    requires entry == EntryAt(colors, labels, values, total, mode, fixed2, i)
    ensures text + [entry[0]] + [entry[1]] + [entry[2]]
         == [LegendOpen] + Join(Entries(colors, labels, values, total, mode, fixed2, i + 1))
  {
    EntriesSnoc(colors, labels, values, total, mode, fixed2, i);
    assert text + [entry[0]] + [entry[1]] + [entry[2]] == text + entry;
  }

  /** With a non-empty series, the legend's pieces total the series and cap the entries at five. */
  lemma LegendPiecesOk(colors: seq<string>, labels: seq<string>, values: seq<nat>,
                       mode: DisplayFormatter, fixed2: real -> string)
    requires values != []
    ensures LegendPieces(colors, labels, values, mode, fixed2)
         == Ok([LegendOpen]
               + Join(Entries(colors, labels, values, SumNat(values), mode, fixed2, Min(MaxLabels(), |labels|)))
               + [LegendClose])
  {
  }

  /**
   * Legend entry `i` (for each of the first min(5, |labels|) labels) is an
   * `<li>` holding a dot in colour `i`, label `i` and the suffix of value
   * `i`: nothing under NONE, the raw value in bold under RAW.
   */
  lemma LegendEntryShows(colors: seq<string>, labels: seq<string>, values: seq<nat>,
                         mode: DisplayFormatter, fixed2: real -> string, i: nat)
    requires values != [] && i < Min(MaxLabels(), |labels|)
    ensures var r := LegendPieces(colors, labels, values, mode, fixed2);
      var suffix := LegendSuffix(mode, values, i, SumNat(values), fixed2);
      && r.Ok? && |r.value| == 3 * Min(MaxLabels(), |labels|) + 2
      && r.value[3 * i + 1..3 * i + 4] == LegendEntry(TextOf(colors, i), labels[i], suffix)
      && (mode == None ==> suffix == "")
      && (mode == Raw && i < |values| ==> suffix == " (<b>" + IntToString(values[i]) + "</b>)")
  {
    LegendSlice(colors, labels, values, mode, fixed2, i);
    assert TextOf(labels, i) == labels[i];
  }

  /** The legend's pieces 3i + 1 to 3i + 3 are entry `i`. */
  lemma LegendSlice(colors: seq<string>, labels: seq<string>, values: seq<nat>,
                    mode: DisplayFormatter, fixed2: real -> string, i: nat)
    requires values != [] && i < Min(MaxLabels(), |labels|)
    ensures var r := LegendPieces(colors, labels, values, mode, fixed2);
      && r.Ok? && |r.value| == 3 * Min(MaxLabels(), |labels|) + 2
      && r.value[3 * i + 1..3 * i + 4] == EntryAt(colors, labels, values, SumNat(values), mode, fixed2, i)
  {
    var es := Entries(colors, labels, values, SumNat(values), mode, fixed2, Min(MaxLabels(), |labels|));
    LegendPiecesOk(colors, labels, values, mode, fixed2);
    JoinBlockAt(es, i);
    Bracketed(LegendOpen, Join(es), LegendClose, 3 * i);
  }

  /** Pieces 1 to 3 after a first piece are the first three of what follows it. */
  lemma Bracketed<T>(first: T, middle: seq<T>, last: T, k: nat)
    requires k + 3 <= |middle|
    ensures ([first] + middle + [last])[k + 1..k + 4] == middle[k..k + 3]
  {
  }

  /** The legend has the opening and closing list tags around exactly min(5, |labels|) entries. */
  lemma LegendShape(colors: seq<string>, labels: seq<string>, values: seq<nat>,
                    mode: DisplayFormatter, fixed2: real -> string)
    requires values != []
    ensures var r := LegendPieces(colors, labels, values, mode, fixed2);
      && r.Ok? && |r.value| == 3 * Min(5, |labels|) + 2
      && r.value[0] == LegendOpen && r.value[|r.value| - 1] == LegendClose
  {
    var n := Min(5, |labels|);
    var es := Entries(colors, labels, values, SumNat(values), mode, fixed2, n);
    LegendPiecesOk(colors, labels, values, mode, fixed2);
    if n > 0 {
      JoinBlockAt(es, 0);
    }
  }

  /** Labels past the fifth never influence the legend. */
  lemma LegendTruncates(colors: seq<string>, labels: seq<string>, values: seq<nat>,
                        mode: DisplayFormatter, fixed2: real -> string)
    requires |labels| > 5
    ensures LegendPieces(colors, labels, values, mode, fixed2) == LegendPieces(colors, labels[..5], values, mode, fixed2)
  {
    if values != [] {
      var total := SumNat(values);
      LegendPiecesOk(colors, labels, values, mode, fixed2);
      LegendPiecesOk(colors, labels[..5], values, mode, fixed2);
      var es := Entries(colors, labels, values, total, mode, fixed2, 5);
      var es' := Entries(colors, labels[..5], values, total, mode, fixed2, 5);
      forall k | 0 <= k < 5
        ensures es[k] == es'[k]
      {
        EntryAtSameLabel(colors, labels, labels[..5], values, total, mode, fixed2, k);
      }
      assert es == es';
    }
  }

  /** An entry depends on the labels only through its own label. */
  lemma EntryAtSameLabel(colors: seq<string>, labels: seq<string>, labels': seq<string>, values: seq<nat>,
                         total: nat, mode: DisplayFormatter, fixed2: real -> string, k: nat)
    requires k < |labels| && k < |labels'| && labels[k] == labels'[k]
    ensures EntryAt(colors, labels, values, total, mode, fixed2, k) == EntryAt(colors, labels', values, total, mode, fixed2, k)
  {
    assert TextOf(labels, k) == TextOf(labels', k);
  }

  /** `legendCallback`: totals the values, caps the entry count at five and pushes each entry's pieces. */
  method LegendCallback(colors: seq<string>, labels: seq<string>, values: seq<nat>,
                        mode: DisplayFormatter, fixed2: real -> string) returns (r: Result<string>)
    ensures LegendPieces(colors, labels, values, mode, fixed2).Throw? <==> r.Throw?
    ensures r.Throw? ==> r.error == ReduceOfEmptyArray
    ensures r.Ok? ==> r.value == Join(LegendPieces(colors, labels, values, mode, fixed2).value)
  {
    var maxLabels := 5;
    if values == [] {
      return Throw(ReduceOfEmptyArray);
    }
    var total := SumNat(values);
    var text: seq<string> := [];
    if |labels| < maxLabels {
      maxLabels := |labels|;
    }
    text := text + [LegendOpen];
    for i := 0 to maxLabels
      invariant text == [LegendOpen] + Join(Entries(colors, labels, values, total, mode, fixed2, i))
    {
      var entry := EntryAt(colors, labels, values, total, mode, fixed2, i);
      ghost var before := text;
      text := text + [entry[0]];
      text := text + [entry[1]];
      text := text + [entry[2]];
      LegendStep(colors, labels, values, total, mode, fixed2, i, before, entry);
    }
    text := text + [LegendClose];
    LegendPiecesOk(colors, labels, values, mode, fixed2);
    r := Ok(Join(text));
  }

  // ---------------------------------------------------------------------
  // Tooltip.
  // ---------------------------------------------------------------------

  /** The tooltip of slice `index`: its label followed by the display-mode suffix. */
  function TooltipLabel(labels: seq<string>, values: seq<nat>, index: nat,
                        mode: DisplayFormatter, fixed2: real -> string): string
    requires index < |values|
  {
    var total := SumNat(values);
    var currentValue := values[index];
    var value := match mode
      case None => ""
      case Percentage => ": " + PercentText(currentValue, total, fixed2) + "%"
      case Raw => ": " + IntToString(currentValue);
    TextOf(labels, index) + value
  }

  /** The tooltip is the slice's label followed by `formatLabel` of its value and the series total. */
  lemma TooltipIsFormatLabel(labels: seq<string>, values: seq<nat>, index: nat,
                             mode: DisplayFormatter, fixed2: real -> string)
    requires index < |values|
    ensures TooltipLabel(labels, values, index, mode, fixed2)
         == TextOf(labels, index) + FormatLabel(mode, values[index], SumNat(values), fixed2)
    ensures mode == None ==> TooltipLabel(labels, values, index, mode, fixed2) == TextOf(labels, index)
  {
  }

  // ---------------------------------------------------------------------
  // The formatter object.
  // ---------------------------------------------------------------------

  class PieWidgetFormatter {
    /** `_chart`: null until `init` has run. */
    var chart: Chart?<PieDataset>
    /** The legend container's `innerHTML`. */
    var legend: string

    constructor ()
      ensures chart == null && legend == ""
    {
      chart := null;
      legend := "";
    }

    /** Regenerates the legend from the chart's data (`generateLegend`). */
    method RefreshLegend(mode: DisplayFormatter, fixed2: real -> string) returns (outcome: Outcome)
      requires chart != null && |chart.datasets| == 1
      modifies this`legend
      ensures var r := LegendPieces(chart.datasets[0].backgroundColor, chart.labels, chart.datasets[0].data, mode, fixed2);
        && (outcome.Failed? <==> r.Throw?)
        && legend == if r.Ok? then Join(r.value) else old(legend)
    {
      var text := LegendCallback(chart.datasets[0].backgroundColor, chart.labels, chart.datasets[0].data, mode, fixed2);
      match text
      case Throw(e) => outcome := Failed(e);
      case Ok(html) =>
        legend := html;
        outcome := Done;
    }

    /** `init`: builds the datasets, creates the chart and fills the legend. */
    method Init(rsp: seq<SeriesPayload>, mode: DisplayFormatter, fixed2: real -> string) returns (outcome: Outcome)
      modifies this
      ensures rsp == [] ==> outcome == Failed(UndefinedProperty) && chart == old(chart) && legend == old(legend)
      ensures rsp != [] ==> (chart != null && fresh(chart)
        && chart.datasets == BuildDatasets(rsp).value.datasets && chart.labels == rsp[0].data.keys)
      ensures rsp != [] ==> (outcome.Failed? <==> rsp[0].data.values == [])
      ensures outcome.Failed? ==> legend == old(legend)
      ensures outcome.Done? ==>
        legend == Join(LegendPieces(ColorPalette(), rsp[0].data.keys, rsp[0].data.values, mode, fixed2).value)
    {
      var built := BuildDatasets(rsp);
      if built.Throw? {
        return Failed(built.error);
      }
      chart := new Chart(built.value.datasets, built.value.labels);
      outcome := RefreshLegend(mode, fixed2);
    }

    /**
     * `update`: throws "The chart has not been initialized!" and changes
     * nothing before `init`; otherwise replaces the chart's datasets and
     * labels with a fresh build and regenerates the legend.
     */
    method Update(rsp: seq<SeriesPayload>, mode: DisplayFormatter, fixed2: real -> string) returns (outcome: Outcome)
      modifies this, chart
      ensures chart == old(chart)
      ensures old(chart) == null ==> outcome == Failed(NotInitialized) && legend == old(legend)
      ensures old(chart) != null && rsp == [] ==> (outcome == Failed(UndefinedProperty)
        && chart.datasets == old(chart.datasets) && chart.labels == old(chart.labels) && legend == old(legend))
      ensures old(chart) != null && rsp != [] ==>
        && chart.datasets == BuildDatasets(rsp).value.datasets && chart.labels == rsp[0].data.keys
        && (outcome.Failed? <==> rsp[0].data.values == [])
        && (outcome.Done? ==> legend == Join(LegendPieces(ColorPalette(), rsp[0].data.keys, rsp[0].data.values, mode, fixed2).value))
      ensures outcome.Failed? ==> legend == old(legend)
    {
      if chart == null {
        return Failed(NotInitialized);
      }
      var built := BuildDatasets(rsp);
      if built.Throw? {
        return Failed(built.error);
      }
      chart.datasets := built.value.datasets;
      chart.labels := built.value.labels;
      outcome := RefreshLegend(mode, fixed2);
    }
  }
}
