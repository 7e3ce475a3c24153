/**
 * The data exchanged between the stats backend, the gateway details view
 * and the chart component: one stat row per time bucket in, one chart
 * object (labels plus positional datasets) out.
 */
module Charts {

  /** The bucket start as the backend serialises it; only ever handed to a formatter. */
  type Timestamp = string

  /** One time bucket reported by the stats backend, with its four frame counters. */
  datatype StatRow = StatRow(
    timestamp: Timestamp,
    rxPacketsReceived: nat,
    rxPacketsReceivedOK: nat,
    txPacketsReceived: nat,
    txPacketsEmitted: nat)

  /** One line of a chart: its legend label (`label` in the chart object) and its values, one per chart label. */
  datatype Dataset = Dataset(name: string, data: seq<int>)

  /** The object handed to the chart component: x-axis labels and positional datasets. */
  datatype ChartSeries = ChartSeries(labels: seq<string>, datasets: seq<Dataset>)

  /** `chart.labels.push(text)`. */
  function PushLabel(c: ChartSeries, text: string): ChartSeries
  {
    c.(labels := c.labels + [text])
  }

  /** `chart.datasets[k].data.push(v)`. */
  function PushValue(c: ChartSeries, k: nat, v: int): ChartSeries
    requires k < |c.datasets|
  {
    c.(datasets := c.datasets[k := c.datasets[k].(data := c.datasets[k].data + [v])])
  }
}
