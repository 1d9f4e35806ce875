/**
 * The records exchanged with the ntopng REST endpoint and the chart handle
 * that every formatter owns.
 */
module Types {
  import opened Js

  /** One labelled value of the first-generation payload (`k`, `v`, `url?`). */
  datatype DataPoint = DataPoint(k: string, v: nat, url: Maybe<string>)

  /** A datasource as sent in a request: its type and its parameters. */
  datatype Datasource = Datasource(dsType: string, params: map<string, string>)

  /** First-generation payload: the datasource and its data points. */
  datatype WidgetResponsePayload = WidgetResponsePayload(data: seq<DataPoint>, datasource: Datasource)

  /** The REST envelope (`rc`, `rc_str`, `rc_str_hr`, `rsp`). */
  datatype WidgetDataResponse = WidgetDataResponse(rc: int, rcStr: string, rcStrHr: string, rsp: seq<WidgetResponsePayload>)

  /** The request body posted to the endpoint. */
  datatype WidgetRequest = WidgetRequest(transformation: string, datasources: seq<Datasource>, csrf: Maybe<string>)

  /** Second-generation payload data: parallel `keys` and `values` and the series label (`label`). */
  datatype SeriesData = SeriesData(keys: seq<string>, values: seq<nat>, seriesLabel: string)

  /** Second-generation payload (`payload.data`). */
  datatype SeriesPayload = SeriesPayload(data: SeriesData)

  /** A pie dataset: the slice values, the series label and one colour per slice. */
  datatype PieDataset = PieDataset(data: seq<nat>, seriesLabel: string, backgroundColor: seq<string>)

  /** How a value is shown next to its label. */
  datatype DisplayFormatter = None | Percentage | Raw

  /** The part of a chart object the formatters write: `data.datasets` and `data.labels`. */
  class Chart<D> {
    var datasets: seq<D>
    var labels: seq<string>

    constructor (datasets: seq<D>, labels: seq<string>)
      ensures this.datasets == datasets && this.labels == labels
    {
      this.datasets := datasets;
      this.labels := labels;
    }
  }
}
