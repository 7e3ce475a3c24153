/**
 * The decision logic of the gateway details view: the two transforms that
 * turn stat rows into chart objects (frames received / transmitted per
 * day, and the per-minute online status) and the two display selections
 * made while rendering (map position and last-seen text).
 *
 * Date formatting is a foreign library here: each formatter is a function
 * parameter (`fmtDay` for the "Do" pattern, `fmtTime` for "H:mm",
 * `fmtLastSeen` for "lll").
 */
module GatewayDetails {
  import opened JsValues
  import opened Charts

  /** Bucket widths requested from the stats backend by the two loaders. */
  const StatsInterval := "DAY"
  const StatusInterval := "MINUTE"

  /** Legend labels, in the positions the chart styling depends on. */
  const RxLabel := "rx received"
  const TxLabel := "tx emitted"
  const StatusLabel := "status"

  /** Text shown for a gateway that has never been seen. */
  const Never := "Never"

  // ---------------------------------------------------------------------
  // Frames received / transmitted (loadStats)
  // ---------------------------------------------------------------------

  /** The chart object loadStats creates before it looks at any row. */
  function EmptyThroughput(): ChartSeries
  {
    ChartSeries([], [Dataset(RxLabel, []), Dataset(TxLabel, [])])
  }

  /** What one iteration of the loadStats loop does to the chart object. */
  function ThroughputStep(c: ChartSeries, row: StatRow, fmtDay: Timestamp -> string): ChartSeries
    requires |c.datasets| == 2
  {
    PushValue(PushValue(PushLabel(c, fmtDay(row.timestamp)), 0, row.rxPacketsReceivedOK), 1, row.txPacketsEmitted)
  }

  /**
   * The chart loadStats publishes for `rows`: exactly two datasets, "rx
   * received" first and "tx emitted" second, whatever the rows are; one
   * label and one value per dataset for every row, in row order.
   */
  function Throughput(rows: seq<StatRow>, fmtDay: Timestamp -> string): (c: ChartSeries)
    ensures |c.datasets| == 2
    ensures c.datasets[0].name == RxLabel && c.datasets[1].name == TxLabel
    ensures |c.labels| == |rows| && |c.datasets[0].data| == |rows| && |c.datasets[1].data| == |rows|
    ensures forall i :: 0 <= i < |rows| ==>
              c.labels[i] == fmtDay(rows[i].timestamp) &&
              c.datasets[0].data[i] == rows[i].rxPacketsReceivedOK &&
              c.datasets[1].data[i] == rows[i].txPacketsEmitted
    decreases |rows|
  {
    if rows == [] then EmptyThroughput()
    else ThroughputStep(Throughput(rows[..|rows| - 1], fmtDay), rows[|rows| - 1], fmtDay)
  }

  /** The body of the loadStats success callback: build the chart row by row. */
  method LoadStatsSeries(rows: seq<StatRow>, fmtDay: Timestamp -> string) returns (statsUpDn: ChartSeries)
    ensures statsUpDn == Throughput(rows, fmtDay)
  {
    statsUpDn := EmptyThroughput();
    for i := 0 to |rows|
      invariant statsUpDn == Throughput(rows[..i], fmtDay)
    {
      var row := rows[i];
      statsUpDn := PushLabel(statsUpDn, fmtDay(row.timestamp));
      statsUpDn := PushValue(statsUpDn, 0, row.rxPacketsReceivedOK);
      statsUpDn := PushValue(statsUpDn, 1, row.txPacketsEmitted);
      assert rows[..i + 1][..i] == rows[..i];
    }
    assert rows[..|rows|] == rows;
  }

  /**
   * Each row contributes to the chart on its own and in place: the chart of
   * two consecutive batches of rows is the two charts laid end to end, so
   * rows are neither reordered, merged nor dropped.
   */
  lemma ThroughputConcat(a: seq<StatRow>, b: seq<StatRow>, fmtDay: Timestamp -> string)
    ensures Throughput(a + b, fmtDay).labels == Throughput(a, fmtDay).labels + Throughput(b, fmtDay).labels
    ensures Throughput(a + b, fmtDay).datasets[0].data
         == Throughput(a, fmtDay).datasets[0].data + Throughput(b, fmtDay).datasets[0].data
    ensures Throughput(a + b, fmtDay).datasets[1].data
         == Throughput(a, fmtDay).datasets[1].data + Throughput(b, fmtDay).datasets[1].data
  {
    var c, ca, cb := Throughput(a + b, fmtDay), Throughput(a, fmtDay), Throughput(b, fmtDay);
    forall i | 0 <= i < |a + b|
      ensures c.labels[i] == (ca.labels + cb.labels)[i]
      ensures c.datasets[0].data[i] == (ca.datasets[0].data + cb.datasets[0].data)[i]
      ensures c.datasets[1].data[i] == (ca.datasets[1].data + cb.datasets[1].data)[i]
    {
      if i < |a| {
        assert (a + b)[i] == a[i];
      } else {
        assert (a + b)[i] == b[i - |a|];
      }
    }
  }

  // ---------------------------------------------------------------------
  // Gateway status (loadStatus)
  // ---------------------------------------------------------------------

  /** Total activity of a bucket: the sum tested at the top of the loadStatus loop. */
  function Activity(row: StatRow): nat
  {
    row.rxPacketsReceived + row.rxPacketsReceivedOK + row.txPacketsReceived + row.txPacketsEmitted
  }

  /** At least one of the bucket's four counters is nonzero. */
  predicate AnyCounterNonZero(row: StatRow)
  {
    row.rxPacketsReceived != 0 || row.rxPacketsReceivedOK != 0 ||
    row.txPacketsReceived != 0 || row.txPacketsEmitted != 0
  }

  /** The four counters of a bucket, regardless of which is which. */
  function Counters(row: StatRow): multiset<nat>
  {
    multiset{row.rxPacketsReceived, row.rxPacketsReceivedOK, row.txPacketsReceived, row.txPacketsEmitted}
  }

  /**
   * The status value plotted for one bucket: binary, and 1 exactly when
   * some counter is nonzero. A bucket reported with all counters zero and
   * a bucket without any report look the same.
   */
  function LivenessValue(row: StatRow): (v: int)
    ensures v == 0 || v == 1
    ensures v == 1 <==> AnyCounterNonZero(row)
  {
    if Activity(row) > 0 then 1 else 0
  }

  /** The status value does not depend on which of the four counters is active. */
  lemma LivenessIgnoresWhichCounter(r: StatRow, s: StatRow)
    requires Counters(r) == Counters(s)
    ensures LivenessValue(r) == LivenessValue(s)
  {
    assert AnyCounterNonZero(r) <==> Counters(r)[0] < 4;
    assert AnyCounterNonZero(s) <==> Counters(s)[0] < 4;
  }

  /** The chart object loadStatus creates before it looks at any row. */
  function EmptyStatus(): ChartSeries
  {
    ChartSeries([], [Dataset(StatusLabel, [])])
  }

  /** What one iteration of the loadStatus loop does to the chart object. */
  function StatusStep(c: ChartSeries, row: StatRow, fmtTime: Timestamp -> string): ChartSeries
    requires |c.datasets| == 1
  {
    PushValue(PushLabel(c, fmtTime(row.timestamp)), 0, LivenessValue(row))
  }

  /**
   * The chart loadStatus publishes for `rows`: the single dataset "status",
   * never omitted, with one label and one binary value per row in row
   * order; the value is 1 exactly when the row's counters sum to more
   * than zero.
   */
  function Status(rows: seq<StatRow>, fmtTime: Timestamp -> string): (c: ChartSeries)
    ensures |c.datasets| == 1 && c.datasets[0].name == StatusLabel
    ensures |c.labels| == |rows| && |c.datasets[0].data| == |rows|
    ensures forall i :: 0 <= i < |rows| ==>
              c.labels[i] == fmtTime(rows[i].timestamp) &&
              (c.datasets[0].data[i] == 0 || c.datasets[0].data[i] == 1) &&
              (c.datasets[0].data[i] == 1 <==> Activity(rows[i]) > 0)
    decreases |rows|
  {
    if rows == [] then EmptyStatus()
    else StatusStep(Status(rows[..|rows| - 1], fmtTime), rows[|rows| - 1], fmtTime)
  }

  /** The body of the loadStatus success callback: build the chart row by row. */
  method LoadStatusSeries(rows: seq<StatRow>, fmtTime: Timestamp -> string) returns (statusGw: ChartSeries)
    ensures statusGw == Status(rows, fmtTime)
  {
    statusGw := EmptyStatus();
    for i := 0 to |rows|
      invariant statusGw == Status(rows[..i], fmtTime)
    {
      var row := rows[i];
      statusGw := PushLabel(statusGw, fmtTime(row.timestamp));
      if row.rxPacketsReceived + row.rxPacketsReceivedOK + row.txPacketsReceived + row.txPacketsEmitted > 0 {
        statusGw := PushValue(statusGw, 0, 1);
      } else {
        statusGw := PushValue(statusGw, 0, 0);
      }
      assert rows[..i + 1][..i] == rows[..i];
    }
    assert rows[..|rows|] == rows;
  }

  /** As for throughput: the status chart of two batches is the two charts end to end. */
  lemma StatusConcat(a: seq<StatRow>, b: seq<StatRow>, fmtTime: Timestamp -> string)
    ensures Status(a + b, fmtTime).labels == Status(a, fmtTime).labels + Status(b, fmtTime).labels
    ensures Status(a + b, fmtTime).datasets[0].data
         == Status(a, fmtTime).datasets[0].data + Status(b, fmtTime).datasets[0].data
  {
    var c, ca, cb := Status(a + b, fmtTime), Status(a, fmtTime), Status(b, fmtTime);
    forall i | 0 <= i < |a + b|
      ensures c.labels[i] == (ca.labels + cb.labels)[i]
      ensures c.datasets[0].data[i] == (ca.datasets[0].data + cb.datasets[0].data)[i]
    {
      if i < |a| {
        assert (a + b)[i] == a[i];
      } else {
        assert (a + b)[i] == b[i - |a|];
      }
    }
  }

  // ---------------------------------------------------------------------
  // Display selections in render
  // ---------------------------------------------------------------------

  /** The fields of `gateway.location` that decide the map position. */
  datatype Location = Location(latitude: JsValue, longitude: JsValue)

  /** The map's fallback centre. */
  function Origin(): seq<JsValue>
  {
    [Num(0.0), Num(0.0)]
  }

  /**
   * The branch condition of the position selection, operator by operator:
   * the longitude conjunct applies `typeof` to the result of comparing the
   * longitude with the string "undefined".
   */
  predicate PositionTestAsWritten(loc: Location)
  {
    TypeOf(loc.latitude) != "undefined" &&
    Truthy(Str(TypeOf(Bool(loc.longitude != Str("undefined")))))
  }

  /**
   * The map position as the view computes it: only the presence of a
   * latitude decides the branch, and the longitude is passed through even
   * when it is undefined.
   */
  function MapPosition(loc: Location): (p: seq<JsValue>)
    ensures |p| == 2
    ensures !loc.latitude.Undefined? ==> p == [loc.latitude, loc.longitude]
    ensures loc.latitude.Undefined? ==> p == Origin()
  {
    if PositionTestAsWritten(loc) then [loc.latitude, loc.longitude] else Origin()
  }

  /** With a latitude and no longitude, an undefined coordinate reaches the map. */
  lemma UndefinedLongitudeReachesMap(lat: JsValue)
    requires !lat.Undefined?
    ensures MapPosition(Location(lat, Undefined))[1] == Undefined
  {
  }

  /**
   * The evidently intended selection: fall back to the origin unless both
   * coordinates are defined, so the map never gets an undefined coordinate.
   */
  function MapPositionIntended(loc: Location): (p: seq<JsValue>)
    ensures |p| == 2 && !p[0].Undefined? && !p[1].Undefined?
    ensures !loc.latitude.Undefined? && !loc.longitude.Undefined? <==> p == [loc.latitude, loc.longitude]
    ensures loc.latitude.Undefined? || loc.longitude.Undefined? ==> p == Origin()
  {
    if TypeOf(loc.latitude) != "undefined" && TypeOf(loc.longitude) != "undefined"
    then [loc.latitude, loc.longitude]
    else Origin()
  }

  /** The two selections differ exactly on a defined latitude with an undefined longitude. */
  lemma MapPositionAgreesUnlessLongitudeMissing(loc: Location)
    ensures MapPosition(loc) != MapPositionIntended(loc)
        <==> !loc.latitude.Undefined? && loc.longitude.Undefined?
  {
  }

  /**
   * The "Last seen at" text: "Never" for a null timestamp, otherwise the
   * formatted timestamp. The test is against null only, so an undefined
   * timestamp is formatted too.
   */
  function LastSeenText(lastSeenAt: JsValue, fmtLastSeen: JsValue -> string): (s: string)
    ensures lastSeenAt.Null? ==> s == Never
    ensures !lastSeenAt.Null? ==> s == fmtLastSeen(lastSeenAt)
  {
    if lastSeenAt != Null then fmtLastSeen(lastSeenAt) else Never
  }

  /** When the formatter never produces "Never", the text is "Never" exactly for null. */
  lemma LastSeenNeverExactlyWhenNull(lastSeenAt: JsValue, fmtLastSeen: JsValue -> string)
    requires forall v :: fmtLastSeen(v) != Never
    ensures LastSeenText(lastSeenAt, fmtLastSeen) == Never <==> lastSeenAt.Null?
  {
  }
}
