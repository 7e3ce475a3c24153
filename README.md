# Gateway details: telemetry charts

This project models the decision logic of the gateway details view of the
ChirpStack application server's web interface. The view asks the stats
backend for per-bucket frame counters and turns the rows into two chart
objects:

- **Frames received / transmitted** (`loadStats`): one row per day. The chart
  has one label per row and exactly two positional datasets: "rx received",
  taken from `rxPacketsReceivedOK`, and "tx emitted", taken from
  `txPacketsEmitted`.
- **Gateway status** (`loadStatus`): one row per minute. The chart has one
  label per row and a single dataset, "status". Its value is 1 when the
  row's four counters sum to more than zero and 0 otherwise.

While rendering, the view also picks the map position (falling back to
`[0,0]`) and the "Last seen at" text (defaulting to "Never").

Files:

- `charts.dfy` (module `Charts`): the stat row, the dataset and the chart
  object, plus the two `push` operations the loaders perform on a chart.
- `gateway_details.dfy` (module `GatewayDetails`): the two builders and the
  two render-time selections. Each loader's loop is a `method` that pushes
  into the chart row by row. It is proved equal to a recursive reference
  function (`Throughput`, `Status`) whose contract gives the chart's shape
  and its contents index by index.
- `js_values.dfy` (module `JsValues`): the JavaScript values the render
  step inspects, with `typeof` and truthiness.

Date formatting (moment's "Do", "H:mm" and "lll" patterns) is a function
parameter of each operation. Nothing is assumed about it.

## Model

| member | source | states |
|---|---|---|
| `GatewayDetails.Throughput` | ui/src/views/gateways/GatewayDetails.js:50-76 | The throughput chart for any rows, including none, has exactly two datasets: "rx received" at index 0 and "tx emitted" at index 1. The label list and both data lists are as long as the row list. Index i holds the day label of row i's timestamp, row i's `rxPacketsReceivedOK` and row i's `txPacketsEmitted`. |
| `GatewayDetails.LoadStatsSeries` | ui/src/views/gateways/GatewayDetails.js:50-76 | Starting from the two empty datasets and pushing a label and two values for each row, in order, yields exactly the chart `Throughput` describes. |
| `GatewayDetails.ThroughputConcat` | ui/src/views/gateways/GatewayDetails.js:72-76 | Each row contributes independently and in place. The throughput chart of `a + b` is the chart of `a` followed by the chart of `b`, for the labels and for both datasets. No rows are reordered, merged or deduplicated. |
| `GatewayDetails.LivenessValue` | ui/src/views/gateways/GatewayDetails.js:106-110 | The status value of a bucket is always 0 or 1. It is 1 exactly when at least one of the four counters is nonzero. |
| `GatewayDetails.LivenessIgnoresWhichCounter` | ui/src/views/gateways/GatewayDetails.js:106 | Two buckets with the same multiset of counter values get the same status value, so it does not matter which counter is active. |
| `GatewayDetails.Status` | ui/src/views/gateways/GatewayDetails.js:90-111 | The status chart for any rows, including none, has exactly one dataset, "status". The label list and the data list are as long as the row list. Index i holds the time label of row i's timestamp and a value in {0,1} that is 1 exactly when row i's four counters sum to more than zero. |
| `GatewayDetails.LoadStatusSeries` | ui/src/views/gateways/GatewayDetails.js:90-111 | Starting from the empty "status" dataset and pushing, for each row in order, its label and then 1 or 0 by the sum test yields exactly the chart `Status` describes. |
| `GatewayDetails.StatusConcat` | ui/src/views/gateways/GatewayDetails.js:104-111 | The status chart of `a + b` is the chart of `a` followed by the chart of `b`, for the labels and for the data. |
| `JsValues.TypeOf` | ui/src/views/gateways/GatewayDetails.js:142 | `typeof` always yields a non-empty string. That string is "undefined" exactly for `undefined`. |
| `GatewayDetails.MapPosition` | ui/src/views/gateways/GatewayDetails.js:141-146 | The branch is evaluated as the code writes it. The position has two entries. It is `[latitude, longitude]` whenever the latitude is defined, even when the longitude is not, and `[0,0]` when the latitude is undefined. |
| `GatewayDetails.UndefinedLongitudeReachesMap` | ui/src/views/gateways/GatewayDetails.js:142-143 | With a defined latitude and an undefined longitude, the position handed to the map has an undefined second coordinate. |
| `GatewayDetails.MapPositionIntended` | ui/src/views/gateways/GatewayDetails.js:141-146 | The corrected selection never yields an undefined coordinate. It is `[latitude, longitude]` exactly when both are defined, and `[0,0]` otherwise. |
| `GatewayDetails.MapPositionAgreesUnlessLongitudeMissing` | ui/src/views/gateways/GatewayDetails.js:142 | The as-written and corrected selections differ exactly when the latitude is defined and the longitude is undefined. |
| `GatewayDetails.LastSeenText` | ui/src/views/gateways/GatewayDetails.js:148-151 | A null last-seen instant shows "Never". Any other value, including `undefined`, shows the formatter's output for that value. |
| `GatewayDetails.LastSeenNeverExactlyWhenNull` | ui/src/views/gateways/GatewayDetails.js:148-151 | When the formatter never returns the word "Never", the text is "Never" if and only if the last-seen instant is null. |

## Left out

- The stats query (`GatewayStore.getStats`, lines 49 and 89) is a network call. The rows it delivers are the input of each builder. Its callback runs only on success, so a failed query leaves the view's state unchanged, and no error path is modelled.
- The time windows (30 days back and 2 hours back from the current time) and their ISO conversion depend on the clock and a date library. Only the interval names "DAY" and "MINUTE" appear, as constants.
- Concrete date formatting ("Do", "H:mm", "lll") is done by a date library. Each pattern is an uninterpreted function parameter.
- React state and lifecycle are framework state management and are not modelled: the constructor, `componentDidMount`, method binding, `setState`, and the render guard at line 119. The two fetches run independently and asynchronously. Because they share no state, their interleaving is not modelled.
- Presentation is not modelled because it has no logic to state: dataset colours and line styling, chart options, the Leaflet map, the JSX layout and the styles object. A dataset keeps only its legend label and its data.
- Counters are unbounded naturals. JavaScript adds them as doubles, which is exact below 2^53. Rows whose counters are missing or not numeric are not modelled.
- `gateway.location` is assumed to exist. Only its latitude and longitude decide the position. The altitude is displayed only.
- Running a builder twice on the same rows gives the same chart. This follows because the builders are deterministic functions, so no lemma states it.

## Findings

| source | as written | input that shows it | evidently intended | confidence | as-written member | corrected member |
|---|---|---|---|---|---|---|
| ui/src/views/gateways/GatewayDetails.js:142 | `typeof(longitude !== "undefined")` applies `typeof` to a boolean, which always gives the truthy string "boolean". So the longitude is never tested. | location with latitude 1 and no longitude: position is `[1, undefined]` | `typeof(longitude) !== "undefined"`, falling back to `[0,0]` unless both coordinates are defined | high (not executed) | `GatewayDetails.MapPosition`, `GatewayDetails.UndefinedLongitudeReachesMap` | `GatewayDetails.MapPositionIntended` |
