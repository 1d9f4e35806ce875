/**
 * The mixed-chart formatter
 * (src/formatters/charts/MixedChartWidgetFormatter.tsx): one dataset per
 * payload whose chart type and styles come from the `<ntop-datasource>`
 * element at the same position. The dataset's own fields are copied onto
 * that element's style object with `Object.assign`, so the style object
 * itself becomes the dataset and keeps the fields between updates.
 */
module MixedChart {
  import opened Js
  import opened Types
  import opened Utils
  import opened Series

  /** The JavaScript values a style object holds. */
  datatype JsValue =
    | Undef
    | Null
    | Bool(b: bool)
    | Number(n: Num)
    | Str(s: string)
    | NumArray(data: seq<Num>)

  /** JavaScript falsiness: undefined, null, false, 0, NaN and the empty string. */
  predicate Falsy(v: JsValue)
  {
    match v
    case Undef => true
    case Null => true
    case Bool(b) => !b
    case Number(n) => n.NaN? || n.r == 0.0
    case Str(s) => s == ""
    case NumArray(_) => false
  }

  /** `style.fill !== undefined && !style.fill`: a missing key reads as undefined. */
  predicate FillIsFalse(styles: map<string, JsValue>)
  {
    "fill" in styles && styles["fill"] != Undef && Falsy(styles["fill"])
  }

  /** The key the palette colour goes to: the line colour when the area is not filled. */
  function ColorKey(styles: map<string, JsValue>): string
  {
    if FillIsFalse(styles) then "borderColor" else "backgroundColor"
  }

  /** A possibly undefined string as a JavaScript value. */
  function StrOrUndef(m: Maybe<string>): JsValue
  {
    match m
    case Undefined => Undef
    case Defined(s) => Str(s)
  }

  /** The fields of the dataset built for the payload at position `index`. */
  function DatasetFields(payload: SeriesPayload, chartType: Maybe<string>, index: nat, mode: DisplayFormatter,
                         styles: map<string, JsValue>): map<string, JsValue>
  {
    map["label" := Str(payload.data.seriesLabel),
        "type" := StrOrUndef(chartType),
        "data" := NumArray(Scaled(payload.data.values, mode)),
        ColorKey(styles) := StrOrUndef(PaletteAt(index))]
  }

  /** `Object.assign(styles, dataset)`: the dataset's fields overwrite the style's. */
  function Merged(styles: map<string, JsValue>, payload: SeriesPayload, chartType: Maybe<string>,
                  index: nat, mode: DisplayFormatter): map<string, JsValue>
  {
    styles + DatasetFields(payload, chartType, index, mode, styles)
  }

  /**
   * The merged object keeps every style key and adds the dataset's: label,
   * type, the (possibly rescaled) data and the palette colour under
   * `borderColor` when `fill` is set to a falsy value, `backgroundColor`
   * otherwise (undefined past the twelfth dataset); every other style key
   * keeps its value, and so does `fill`.
   */
  lemma MergedMeaning(styles: map<string, JsValue>, payload: SeriesPayload, chartType: Maybe<string>,
                      index: nat, mode: DisplayFormatter)
    ensures var m := Merged(styles, payload, chartType, index, mode);
      var colorKey := if FillIsFalse(styles) then "borderColor" else "backgroundColor";
      && m.Keys == styles.Keys + {"label", "type", "data", colorKey}
      && m["label"] == Str(payload.data.seriesLabel)
      && m["type"] == StrOrUndef(chartType)
      && m["data"] == NumArray(Scaled(payload.data.values, mode))
      && (mode != Percentage ==> forall j :: 0 <= j < |payload.data.values| ==>
            m["data"].data[j] == Finite(payload.data.values[j] as real))
      && (m[colorKey] == Undef <==> index >= 12)
      && (index < 12 ==> m[colorKey] == Str(ColorPalette()[index]))
      && (forall k :: k in styles && k !in {"label", "type", "data", colorKey} ==> m[k] == styles[k])
      && FillIsFalse(m) == FillIsFalse(styles)
  {
    var colorKey := ColorKey(styles);
    var fields := DatasetFields(payload, chartType, index, mode, styles);
    assert fields.Keys == {"label", "type", "data", colorKey};
    assert "fill" !in fields;
  }

  /**
   * Building the same payload twice onto the same style object leaves it as
   * the first build did: the second `Object.assign` finds `fill` unchanged,
   * so it picks the same colour key and writes the same values again.
   */
  lemma MergedIdempotent(styles: map<string, JsValue>, payload: SeriesPayload, chartType: Maybe<string>,
                         index: nat, mode: DisplayFormatter)
    ensures var once := Merged(styles, payload, chartType, index, mode);
      Merged(once, payload, chartType, index, mode) == once
  {
    var once := Merged(styles, payload, chartType, index, mode);
    MergedMeaning(styles, payload, chartType, index, mode);
    assert FillIsFalse(once) == FillIsFalse(styles);
    assert DatasetFields(payload, chartType, index, mode, once) == DatasetFields(payload, chartType, index, mode, styles);
  }

  // ---------------------------------------------------------------------
  // The datasource elements and `buildDatasets`.
  // ---------------------------------------------------------------------

  /** A plain JavaScript object, updated in place by `Object.assign`. */
  class StyleObject {
    var fields: map<string, JsValue>

    constructor (fields: map<string, JsValue>)
      ensures this.fields == fields
    {
      this.fields := fields;
    }
  }

  /** An `<ntop-datasource>` element as the formatter reads it: its chart type and its style object. */
  class NtopDatasource {
    const chartType: Maybe<string>
    const styles: StyleObject

    constructor (chartType: Maybe<string>, styles: StyleObject)
      ensures this.chartType == chartType && this.styles == styles
    {
      this.chartType := chartType;
      this.styles := styles;
    }
  }

  /** `{datasets, labels}`: the datasets are the style objects themselves. */
  datatype Built = Built(datasets: seq<StyleObject>, labels: seq<string>)

  /**
   * How many payloads `buildDatasets` handles before it throws: it stops at
   * the first payload with no values and at the first one without a
   * datasource element.
   */
  function Stop(rsp: seq<SeriesPayload>, elements: nat): (k: nat)
    ensures k <= |rsp|
  {
    Min(FirstEmpty(ValuesOf(rsp)), elements)
  }

  /**
   * What `buildDatasets` returns: at the stopping position the unseeded
   * `reduce` throws first if the payload has no values, otherwise reading
   * the missing element's styles throws; with no payload at all reading the
   * first payload throws; otherwise the style objects of the first |rsp|
   * elements, and the first payload's keys as labels.
   */
  function BuildResult(rsp: seq<SeriesPayload>, contained: seq<NtopDatasource>): Result<Built>
  {
    var stop := Stop(rsp, |contained|);
    if stop < |rsp| then Throw(if rsp[stop].data.values == [] then ReduceOfEmptyArray else UndefinedProperty)
    else if rsp == [] then Throw(UndefinedProperty)
    else Ok(Built(seq(|rsp|, i requires 0 <= i < |rsp| => contained[i].styles), rsp[0].data.keys))
  }

  /**
   * `buildDatasets` succeeds exactly when there is a payload, every payload
   * has values and every payload has its datasource element.
   */
  lemma BuildResultOk(rsp: seq<SeriesPayload>, contained: seq<NtopDatasource>)
    ensures BuildResult(rsp, contained).Ok? <==>
      rsp != [] && |rsp| <= |contained| && forall i :: 0 <= i < |rsp| ==> rsp[i].data.values != []
    ensures BuildResult(rsp, contained).Throw? && |rsp| <= |contained| && rsp != [] ==>
      BuildResult(rsp, contained).error == ReduceOfEmptyArray
  {
    var e := FirstEmpty(ValuesOf(rsp));
    if forall i :: 0 <= i < |rsp| ==> rsp[i].data.values != [] {
      assert forall i :: 0 <= i < |rsp| ==> ValuesOf(rsp)[i] != [];
    } else {
      var i :| 0 <= i < |rsp| && rsp[i].data.values == [];
      assert ValuesOf(rsp)[i] == [];
      assert e <= i;
      assert ValuesOf(rsp)[e] == [];
    }
  }

  /** One `Object.assign(ntopDatasource.styles, dataset)` for the payload at position `index`. */
  method AssignDataset(element: NtopDatasource, payload: SeriesPayload, index: nat, mode: DisplayFormatter)
    modifies element.styles
    ensures element.styles.fields == Merged(old(element.styles.fields), payload, element.chartType, index, mode)
  {
    var style := element.styles.fields;
    var dataset := DatasetFields(payload, element.chartType, index, mode, style);
    element.styles.fields := style + dataset;
  }

  /**
   * `buildDatasets`: maps the payloads in order; for each, totals its values,
   * takes the element at the same position, builds the dataset and merges it
   * into that element's style object. Elements up to the stopping position
   * are merged, even when a later payload throws; the others are untouched.
   */
  method BuildDatasets(rsp: seq<SeriesPayload>, contained: seq<NtopDatasource>, mode: DisplayFormatter)
    returns (r: Result<Built>)
    requires forall i, j :: 0 <= i < j < |contained| ==> contained[i].styles != contained[j].styles
    modifies set i | 0 <= i < |contained| :: contained[i].styles
    ensures r == BuildResult(rsp, contained)
    ensures forall i :: 0 <= i < |contained| ==> (contained[i].styles.fields ==
      if i < Stop(rsp, |contained|)
      then Merged(old(contained[i].styles.fields), rsp[i], contained[i].chartType, i, mode)
      else old(contained[i].styles.fields))
  {
    var index := 0;
    var datasets: seq<StyleObject> := [];
    for k := 0 to |rsp|
      invariant index == k && k <= |contained|
      invariant forall j :: 0 <= j < k ==> rsp[j].data.values != []
      invariant datasets == seq(k, i requires 0 <= i < k => contained[i].styles)
      invariant forall i :: 0 <= i < k ==>
        contained[i].styles.fields == Merged(old(contained[i].styles.fields), rsp[i], contained[i].chartType, i, mode)
      invariant forall i :: k <= i < |contained| ==> contained[i].styles.fields == old(contained[i].styles.fields)
    {
      var payload := rsp[k];
      var i := index;
      index := index + 1;
      var total := Total(payload.data.values);
      if total.Throw? {
        StopAt(rsp, |contained|, k);
        return Throw(total.error);
      }
      if i >= |contained| {
        StopAt(rsp, |contained|, k);
        return Throw(UndefinedProperty);
      }
      var element := contained[i];
      label pre:
      AssignDataset(element, payload, i, mode);
      forall j | 0 <= j < |contained| && j != k
        ensures contained[j].styles.fields == old@pre(contained[j].styles.fields)
      {
        assert contained[j].styles != element.styles;
      }
      datasets := datasets + [element.styles];
    }
    StopAt(rsp, |contained|, |rsp|);
    if rsp == [] {
      return Throw(UndefinedProperty);
    }
    r := Ok(Built(datasets, rsp[0].data.keys));
  }

  /** When the payloads before `k` all have values and `k` is past none of the elements, the stop is `k` exactly where the build stops. */
  lemma StopAt(rsp: seq<SeriesPayload>, elements: nat, k: nat)
    requires k <= |rsp| && k <= elements
    requires forall j :: 0 <= j < k ==> rsp[j].data.values != []
    requires k < |rsp| ==> rsp[k].data.values == [] || k == elements
    ensures Stop(rsp, elements) == k
  {
    assert forall j :: 0 <= j < k ==> ValuesOf(rsp)[j] != [];
    if k < |rsp| && rsp[k].data.values == [] {
      assert ValuesOf(rsp)[k] == [];
    }
  }

  // ---------------------------------------------------------------------
  // The formatter object.
  // ---------------------------------------------------------------------

  class MixedChartWidgetFormatter {
    /** `_chart`: null until `init` has run. */
    var chart: Chart?<StyleObject>

    constructor ()
      ensures chart == null
    {
      chart := null;
    }

    /** `init`: builds the datasets onto the style objects and creates the chart. */
    method Init(rsp: seq<SeriesPayload>, contained: seq<NtopDatasource>, mode: DisplayFormatter) returns (outcome: Outcome)
      requires forall i, j :: 0 <= i < j < |contained| ==> contained[i].styles != contained[j].styles
      modifies this, set i | 0 <= i < |contained| :: contained[i].styles
      ensures outcome.Failed? <==> BuildResult(rsp, contained).Throw?
      ensures outcome.Failed? ==> outcome.error == BuildResult(rsp, contained).error && chart == old(chart)
      ensures outcome.Done? ==> (chart != null && fresh(chart)
        && chart.datasets == BuildResult(rsp, contained).value.datasets && chart.labels == rsp[0].data.keys)
      ensures forall i :: 0 <= i < |contained| ==> (contained[i].styles.fields ==
        if i < Stop(rsp, |contained|)
        then Merged(old(contained[i].styles.fields), rsp[i], contained[i].chartType, i, mode)
        else old(contained[i].styles.fields))
    {
      var built := BuildDatasets(rsp, contained, mode);
      if built.Throw? {
        return Failed(built.error);
      }
      chart := new Chart(built.value.datasets, built.value.labels);
      outcome := Done;
    }

    /**
     * `update`: throws "The chart has not been initialized!" before `init`
     * and touches nothing; otherwise rebuilds onto the style objects and, on
     * success, replaces the chart's datasets and labels.
     */
    method Update(rsp: seq<SeriesPayload>, contained: seq<NtopDatasource>, mode: DisplayFormatter) returns (outcome: Outcome)
      requires forall i, j :: 0 <= i < j < |contained| ==> contained[i].styles != contained[j].styles
      modifies chart, set i | 0 <= i < |contained| :: contained[i].styles
      ensures old(chart) == null ==> (outcome == Failed(NotInitialized)
        && forall i :: 0 <= i < |contained| ==> contained[i].styles.fields == old(contained[i].styles.fields))
      ensures old(chart) != null && BuildResult(rsp, contained).Throw? ==> (outcome == Failed(BuildResult(rsp, contained).error)
        && chart.datasets == old(chart.datasets) && chart.labels == old(chart.labels))
      ensures old(chart) != null && BuildResult(rsp, contained).Ok? ==> (outcome == Done
        && chart.datasets == BuildResult(rsp, contained).value.datasets && chart.labels == rsp[0].data.keys)
      ensures old(chart) != null ==> forall i :: 0 <= i < |contained| ==> (contained[i].styles.fields ==
        if i < Stop(rsp, |contained|)
        then Merged(old(contained[i].styles.fields), rsp[i], contained[i].chartType, i, mode)
        else old(contained[i].styles.fields))
    {
      if chart == null {
        return Failed(NotInitialized);
      }
      var built := BuildDatasets(rsp, contained, mode);
      if built.Throw? {
        return Failed(built.error);
      }
      chart.datasets := built.value.datasets;
      chart.labels := built.value.labels;
      outcome := Done;
    }
  }
}
