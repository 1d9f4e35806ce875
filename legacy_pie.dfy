/**
 * The first-generation pie formatter (src/formatters/pie.tsx). It works on
 * `{k, v, url}` data points, merges the keys of all payloads into one
 * insertion-ordered label set, emits one dataset per payload and colours a
 * dataset with a hash of each label seen so far.
 */
module LegacyPie {
  import opened Js
  import opened Types
  import opened Utils
  import opened Series

  /** The point that a click hit: `_datasetIndex` and `_index`. */
  datatype ActivePoint = ActivePoint(datasetIndex: nat, index: nat)

  // ---------------------------------------------------------------------
  // Specification of the label set.
  // ---------------------------------------------------------------------

  /** The keys of some data points, in order. */
  function Keys(points: seq<DataPoint>): (ks: seq<string>)
    ensures |ks| == |points|
  {
    seq(|points|, j requires 0 <= j < |points| => points[j].k)
  }

  /** Every key of every payload, payload by payload, point by point. */
  function AllKeys(payloads: seq<WidgetResponsePayload>): seq<string>
  {
    if payloads == [] then []
    else AllKeys(payloads[..|payloads| - 1]) + Keys(payloads[|payloads| - 1].data)
  }

  /** A JavaScript `Set` after adding `keys` in order: each key once, where it was first added. */
  function Dedup(keys: seq<string>): seq<string>
  {
    if keys == [] then []
    else
      var prev := Dedup(keys[..|keys| - 1]);
      if keys[|keys| - 1] in prev then prev else prev + [keys[|keys| - 1]]
  }

  predicate NoDuplicates(s: seq<string>)
  {
    forall p, q :: 0 <= p < q < |s| ==> s[p] != s[q]
  }

  /** The position at which `x` first occurs in `s`. */
  function FirstIndex(s: seq<string>, x: string): (i: nat)
    requires x in s
    ensures i < |s| && s[i] == x && x !in s[..i]
  {
    if s[0] == x then 0 else
      assert x in s[1..];
      var j := FirstIndex(s[1..], x);
      assert s[..j + 1] == [s[0]] + s[1..][..j];
      j + 1
  }

  /** The values of some data points, in order (`data.map(d => d.v)`). */
  function Values(points: seq<DataPoint>): (vs: seq<nat>)
    ensures |vs| == |points|
  {
    seq(|points|, j requires 0 <= j < |points| => points[j].v)
  }

  /** `Array.from(labels).map(label => colorHash.hex(label))`. */
  function Colors(labels: seq<string>, hash: string -> string): (cs: seq<string>)
    ensures |cs| == |labels|
  {
    seq(|labels|, j requires 0 <= j < |labels| => hash(labels[j]))
  }

  /** The dataset built for payload `i`: its colours cover the labels of payloads 0..i. */
  function DatasetAt(payloads: seq<WidgetResponsePayload>, i: nat, hash: string -> string): PieDataset
    requires i < |payloads|
  {
    PieDataset(Values(payloads[i].data), payloads[i].datasource.dsType,
               Colors(Dedup(AllKeys(payloads[..i + 1])), hash))
  }

  // ---------------------------------------------------------------------
  // Lemmas about the label set.
  // ---------------------------------------------------------------------

  lemma DedupSnoc(ks: seq<string>, k: string)
    ensures Dedup(ks + [k]) == if k in Dedup(ks) then Dedup(ks) else Dedup(ks) + [k]
  {
    assert (ks + [k])[..|ks|] == ks;
  }

  /** The label set holds exactly the keys that were added. */
  lemma {:induction false} DedupMembers(ks: seq<string>)
    ensures forall x :: x in Dedup(ks) <==> x in ks
  {
    if ks != [] {
      var init := ks[..|ks| - 1];
      DedupMembers(init);
      assert ks == init + [ks[|ks| - 1]];
    }
  }

  /** The label set never holds a key twice. */
  lemma {:induction false} DedupNoDuplicates(ks: seq<string>)
    ensures NoDuplicates(Dedup(ks))
  {
    if ks != [] {
      DedupNoDuplicates(ks[..|ks| - 1]);
    }
  }

  /** Adding more keys only appends to the label set. */
  lemma {:induction false} DedupPrefix(a: seq<string>, b: seq<string>)
    ensures |Dedup(a)| <= |Dedup(a + b)|
    ensures Dedup(a) == Dedup(a + b)[..|Dedup(a)|]
    decreases |b|
  {
    if b == [] {
      assert a + b == a;
    } else {
      var b0 := b[..|b| - 1];
      DedupPrefix(a, b0);
      assert a + b == (a + b0) + [b[|b| - 1]];
      DedupSnoc(a + b0, b[|b| - 1]);
    }
  }

  /** The label set lists keys in the order in which they were first added. */
  lemma {:induction false} DedupFirstSeenOrder(ks: seq<string>)
    ensures forall x :: x in Dedup(ks) ==> x in ks
    ensures forall p, q :: 0 <= p < q < |Dedup(ks)| ==>
      FirstIndex(ks, Dedup(ks)[p]) < FirstIndex(ks, Dedup(ks)[q])
  {
    DedupMembers(ks);
    if ks != [] {
      DedupFirstSeenOrder(ks[..|ks| - 1]);
      OrderStep(ks, ks[..|ks| - 1]);
    }
  }

  /** Adding the last key keeps the label set in first-seen order. */
  lemma OrderStep(ks: seq<string>, init: seq<string>)
    requires ks != [] && init == ks[..|ks| - 1]
    requires forall p, q :: 0 <= p < q < |Dedup(init)| ==>
      && Dedup(init)[p] in init && Dedup(init)[q] in init
      && FirstIndex(init, Dedup(init)[p]) < FirstIndex(init, Dedup(init)[q])
    ensures forall p, q :: 0 <= p < q < |Dedup(ks)| ==>
      && Dedup(ks)[p] in ks && Dedup(ks)[q] in ks
      && FirstIndex(ks, Dedup(ks)[p]) < FirstIndex(ks, Dedup(ks)[q])
  {
    var k := ks[|ks| - 1];
    var d, dd := Dedup(init), Dedup(ks);
    assert ks == init + [k];
    DedupMembers(init);
    forall p, q | 0 <= p < q < |dd|
      ensures dd[p] in ks && dd[q] in ks
      ensures FirstIndex(ks, dd[p]) < FirstIndex(ks, dd[q])
    {
      assert dd[p] == d[p] && d[p] in init;
      FirstIndexExtend(init, k, d[p]);
      if q < |d| {
        assert dd[q] == d[q] && d[q] in init;
        FirstIndexExtend(init, k, d[q]);
      } else {
        assert dd[q] == k && k !in init;
        FirstIndexLast(init, k);
      }
    }
  }

  /** A key not added before is first seen at the end. */
  lemma FirstIndexLast(s: seq<string>, k: string)
    requires k !in s
    ensures FirstIndex(s + [k], k) == |s|
  {
    assert (s + [k])[..|s|] == s;
  }

  lemma FirstIndexExtend(s: seq<string>, k: string, x: string)
    requires x in s
    ensures FirstIndex(s + [k], x) == FirstIndex(s, x)
  {
    var i, j := FirstIndex(s, x), FirstIndex(s + [k], x);
    assert (s + [k])[..i] == s[..i];
    assert (s + [k])[i] == x;
  }

  /** A key sequence without repetitions is its own label set. */
  lemma {:induction false} DedupDistinct(ks: seq<string>)
    requires NoDuplicates(ks)
    ensures Dedup(ks) == ks
  {
    if ks != [] {
      var init := ks[..|ks| - 1];
      DedupDistinct(init);
      DedupMembers(init);
    }
  }

  /** A key belongs to the merged keys exactly when some point of some payload carries it. */
  lemma {:induction false} AllKeysMembers(payloads: seq<WidgetResponsePayload>, x: string)
    ensures x in AllKeys(payloads) <==>
      exists i, j :: 0 <= i < |payloads| && 0 <= j < |payloads[i].data| && payloads[i].data[j].k == x
  {
    if payloads != [] {
      var n := |payloads| - 1;
      AllKeysMembers(payloads[..n], x);
      if x in Keys(payloads[n].data) {
        var j :| 0 <= j < |payloads[n].data| && Keys(payloads[n].data)[j] == x;
        assert payloads[n].data[j].k == x;
      }
      if exists i, j :: 0 <= i < |payloads| && 0 <= j < |payloads[i].data| && payloads[i].data[j].k == x {
        var i, j :| 0 <= i < |payloads| && 0 <= j < |payloads[i].data| && payloads[i].data[j].k == x;
        if i < n {
          assert payloads[..n][i] == payloads[i];
        } else {
          assert Keys(payloads[n].data)[j] == x;
        }
      }
    }
  }

  lemma AllKeysSnoc(payloads: seq<WidgetResponsePayload>, i: nat)
    requires i < |payloads|
    ensures AllKeys(payloads[..i + 1]) == AllKeys(payloads[..i]) + Keys(payloads[i].data)
  {
    assert payloads[..i + 1][..i] == payloads[..i];
  }

  // ---------------------------------------------------------------------
  // buildDatasets.
  // ---------------------------------------------------------------------

  /** Adding the key of point `j` to the label set of earlier keys. */
  lemma AddKeyStep(earlier: seq<string>, data: seq<DataPoint>, j: nat)
    requires j < |data|
    ensures var labels := Dedup(earlier + Keys(data[..j]));
      Dedup(earlier + Keys(data[..j + 1])) == if data[j].k in labels then labels else labels + [data[j].k]
  {
    assert Keys(data[..j + 1]) == Keys(data[..j]) + [data[j].k];
    assert earlier + Keys(data[..j + 1]) == (earlier + Keys(data[..j])) + [data[j].k];
    DedupSnoc(earlier + Keys(data[..j]), data[j].k);
  }

  /**
   * `buildDatasets`: one dataset per payload, in order, each carrying the
   * payload's values, its datasource type and one hash colour per label seen
   * in payloads 0..i; and the label set of all keys in first-seen order.
   */
  method BuildDatasets(fetchedData: seq<WidgetResponsePayload>, hash: string -> string)
    returns (datasets: seq<PieDataset>, labels: seq<string>)
    ensures labels == Dedup(AllKeys(fetchedData))
    ensures |datasets| == |fetchedData|
    ensures forall i :: 0 <= i < |fetchedData| ==> datasets[i] == DatasetAt(fetchedData, i, hash)
  {
    datasets := [];
    labels := [];
    for i := 0 to |fetchedData|
      invariant |datasets| == i
      invariant labels == Dedup(AllKeys(fetchedData[..i]))
      invariant forall p :: 0 <= p < i ==> datasets[p] == DatasetAt(fetchedData, p, hash)
    {
      var data := fetchedData[i].data;
      assert AllKeys(fetchedData[..i]) + Keys(data[..0]) == AllKeys(fetchedData[..i]);
      for j := 0 to |data|
        invariant labels == Dedup(AllKeys(fetchedData[..i]) + Keys(data[..j]))
      {
        AddKeyStep(AllKeys(fetchedData[..i]), data, j);
        if data[j].k !in labels {
          labels := labels + [data[j].k];
        }
      }
      assert data[..|data|] == data;
      AllKeysSnoc(fetchedData, i);
      var colors := Colors(labels, hash);
      datasets := datasets + [PieDataset(Values(data), fetchedData[i].datasource.dsType, colors)];
    }
    assert fetchedData[..|fetchedData|] == fetchedData;
  }

  /** The labels hold every key of every payload, only those, once each, in first-seen order. */
  lemma LabelsAreFirstSeenKeys(payloads: seq<WidgetResponsePayload>)
    ensures var labels := Dedup(AllKeys(payloads));
      && NoDuplicates(labels)
      && (forall x :: x in labels ==> x in AllKeys(payloads))
      && (forall x :: x in labels <==>
            exists i, j :: 0 <= i < |payloads| && 0 <= j < |payloads[i].data| && payloads[i].data[j].k == x)
      && (forall p, q :: 0 <= p < q < |labels| ==>
            FirstIndex(AllKeys(payloads), labels[p]) < FirstIndex(AllKeys(payloads), labels[q]))
  {
    var ks := AllKeys(payloads);
    DedupNoDuplicates(ks);
    DedupFirstSeenOrder(ks);
    DedupMembers(ks);
    forall x ensures x in ks <==>
      exists i, j :: 0 <= i < |payloads| && 0 <= j < |payloads[i].data| && payloads[i].data[j].k == x
    {
      AllKeysMembers(payloads, x);
    }
  }

  /**
   * Dataset i's colours are the hashes of the first labels: one per distinct
   * key of payloads 0..i, entry j being the hash of `labels[j]`.
   */
  lemma DatasetColors(payloads: seq<WidgetResponsePayload>, i: nat, hash: string -> string)
    requires i < |payloads|
    ensures var labels := Dedup(AllKeys(payloads));
      var colors := DatasetAt(payloads, i, hash).backgroundColor;
      && |colors| == |Dedup(AllKeys(payloads[..i + 1]))| <= |labels|
      && forall j :: 0 <= j < |colors| ==> colors[j] == hash(labels[j])
  {
    var rest := payloads[i + 1..];
    AllKeysAppend(payloads[..i + 1], rest);
    assert payloads[..i + 1] + rest == payloads;
    DedupPrefix(AllKeys(payloads[..i + 1]), AllKeys(rest));
  }

  lemma {:induction false} AllKeysAppend(a: seq<WidgetResponsePayload>, b: seq<WidgetResponsePayload>)
    ensures AllKeys(a + b) == AllKeys(a) + AllKeys(b)
    decreases |b|
  {
    if b == [] {
      assert a + b == a;
    } else {
      var b0, last := b[..|b| - 1], b[|b| - 1];
      AllKeysAppend(a, b0);
      assert (a + b)[..|a + b| - 1] == a + b0;
      assert (a + b)[|a + b| - 1] == last;
      calc {
        AllKeys(a + b);
        AllKeys(a + b0) + Keys(last.data);
        (AllKeys(a) + AllKeys(b0)) + Keys(last.data);
        AllKeys(a) + (AllKeys(b0) + Keys(last.data));
        AllKeys(a) + AllKeys(b);
      }
    }
  }

  /** With a single payload whose keys are distinct, every point is coloured by the hash of its own key. */
  lemma SinglePayloadColors(payload: WidgetResponsePayload, hash: string -> string)
    requires NoDuplicates(Keys(payload.data))
    ensures var ds := DatasetAt([payload], 0, hash);
      |ds.backgroundColor| == |ds.data| &&
      forall j :: 0 <= j < |ds.data| ==> ds.backgroundColor[j] == hash(payload.data[j].k)
  {
    assert [payload][..1] == [payload];
    assert AllKeys([payload]) == Keys(payload.data) by {
      assert [payload][..0] == [];
    }
    DedupDistinct(Keys(payload.data));
  }

  // ---------------------------------------------------------------------
  // Percentage texts of a slice.
  // ---------------------------------------------------------------------

  /**
   * The data label drawn next to slice `index`: its label and its share of
   * the dataset in parentheses. The slice exists, so the unseeded `reduce`
   * has at least one value.
   */
  function DataLabelText(labels: seq<string>, values: seq<nat>, index: nat, fixed2: real -> string): string
    requires index < |values|
  {
    var total := SumNat(values);
    TextOf(labels, index) + " (" + PercentText(values[index], total, fixed2) + "%)"
  }

  /** The tooltip of slice `index`: its label, a colon and its share of the dataset. */
  function TooltipText(labels: seq<string>, values: seq<nat>, index: nat, fixed2: real -> string): string
    requires index < |values|
  {
    var total := SumNat(values);
    TextOf(labels, index) + (": " + PercentText(values[index], total, fixed2) + "%")
  }

  /** The tooltip is the slice's label followed by the PERCENTAGE form of `formatLabel`. */
  lemma TooltipIsPercentageLabel(labels: seq<string>, values: seq<nat>, index: nat, fixed2: real -> string)
    requires index < |values|
    ensures TooltipText(labels, values, index, fixed2)
         == TextOf(labels, index) + FormatLabel(Percentage, values[index], SumNat(values), fixed2)
  {
  }

  /** The data label shows the tooltip's share in parentheses instead of after a colon. */
  lemma DataLabelMatchesTooltip(labels: seq<string>, values: seq<nat>, index: nat, fixed2: real -> string)
    requires index < |values|
    ensures var name := TextOf(labels, index);
      DataLabelText(labels, values, index, fixed2)
        == name + " (" + TooltipText(labels, values, index, fixed2)[|name| + 2..] + ")"
  {
    var pt := PercentText(values[index], SumNat(values), fixed2);
    var name := TextOf(labels, index);
    assert (name + (": " + pt + "%"))[|name| + 2..] == pt + "%";
  }

  // ---------------------------------------------------------------------
  // The formatter object: chart handle, last fetched data, clicks.
  // ---------------------------------------------------------------------

  /** Where a click leads: a thrown TypeError, no navigation, or the point's `url`. */
  function ClickTarget(fetchedData: seq<WidgetResponsePayload>, hit: Maybe<ActivePoint>): (r: Result<Maybe<string>>)
    ensures r.Ok? && r.value.Defined? <==>
      hit.Defined? && hit.value.datasetIndex < |fetchedData|
      && hit.value.index < |fetchedData[hit.value.datasetIndex].data|
      && fetchedData[hit.value.datasetIndex].data[hit.value.index].url.Defined?
    ensures r.Ok? && r.value.Defined? ==>
      r.value.value == fetchedData[hit.value.datasetIndex].data[hit.value.index].url.value
    ensures hit == Undefined ==> r == Ok(Undefined)
  {
    match hit
    case Undefined => Ok(Undefined)
    case Defined(p) =>
      if p.datasetIndex >= |fetchedData| || p.index >= |fetchedData[p.datasetIndex].data| then Throw(UndefinedProperty)
      else Ok(fetchedData[p.datasetIndex].data[p.index].url)
  }

  class PieWidgetFormatter {
    /** `this.chart`: null until `init` has run. */
    var chart: Chart?<PieDataset>
    var fetchedData: seq<WidgetResponsePayload>
    /** `location.href`, written by a click on a point that has a url. */
    var location: string
    /** `new ColorHash({saturation: 0.75}).hex`. */
    const hash: string -> string

    constructor (hash: string -> string, location: string)
      ensures chart == null && fetchedData == [] && this.hash == hash && this.location == location
    {
      chart := null;
      fetchedData := [];
      this.hash := hash;
      this.location := location;
    }

    /** `init`: builds the datasets, records the data and creates the chart. */
    method Init(fetched: seq<WidgetResponsePayload>)
      modifies this
      ensures fetchedData == fetched && chart != null && fresh(chart)
      ensures chart.labels == Dedup(AllKeys(fetched))
      ensures |chart.datasets| == |fetched|
      ensures forall i :: 0 <= i < |fetched| ==> chart.datasets[i] == DatasetAt(fetched, i, hash)
      ensures location == old(location)
    {
      var datasets, labels := BuildDatasets(fetched, hash);
      fetchedData := fetched;
      chart := new Chart(datasets, labels);
    }

    /**
     * `update`: records the new data, then overwrites the chart's datasets
     * and labels. Before `init` there is no chart and the assignment throws,
     * after the data was already recorded.
     */
    method Update(fetched: seq<WidgetResponsePayload>) returns (outcome: Outcome)
      modifies this, chart
      ensures fetchedData == fetched && chart == old(chart) && location == old(location)
      ensures outcome == Failed(UndefinedProperty) <==> old(chart) == null
      ensures old(chart) != null ==> outcome == Done
      ensures chart != null ==>
        && chart.labels == Dedup(AllKeys(fetched))
        && |chart.datasets| == |fetched|
        && forall i :: 0 <= i < |fetched| ==> chart.datasets[i] == DatasetAt(fetched, i, hash)
    {
      var datasets, labels := BuildDatasets(fetched, hash);
      fetchedData := fetched;
      if chart == null {
        outcome := Failed(UndefinedProperty);
      } else {
        chart.datasets := datasets;
        chart.labels := labels;
        outcome := Done;
      }
    }

    /** `onClick`: navigates only when the hit point exists and has a `url`. */
    method OnClick(hit: Maybe<ActivePoint>) returns (outcome: Outcome)
      modifies this`location
      ensures var target := ClickTarget(fetchedData, hit);
        && (outcome.Failed? <==> target.Throw?)
        && location == if target.Ok? && target.value.Defined? then target.value.value else old(location)
    {
      var target := ClickTarget(fetchedData, hit);
      match target
      case Throw(e) =>
        outcome := Failed(e);
      case Ok(url) =>
        outcome := Done;
        if url.Defined? {
          location := url.value;
        }
    }
  }
}
