/**
 * The metrics service's client-side logic: combining four independently settled requests into
 * the dashboard's four cards, choosing the speed unit, and naming the time ranges.
 * Number formatting (`toFixed`) stays symbolic: a formatted text is the number, the count of
 * decimals, and the suffix written after it.
 */
module Metrics {
  import opened Wrappers

  /** One optional numeric field of a JSON body: left out, present as `null`, or a number. */
  datatype Field = Absent | Null | Num(n: real)

  /** The `data` part of a metric response. */
  datatype MetricData = MetricData(averageSpeed: Field, averageLatency: Field, availability: Field, unit: string)

  /** A metric response; `data` is `None` when the body has no `data` object. */
  datatype MetricResponse = MetricResponse(success: bool, message: string, data: Option<MetricData>)

  /** One entry of `Promise.allSettled`. */
  datatype Settled<T> = Fulfilled(value: T) | Rejected(reason: string)

  /** `number.toFixed(digits) + suffix`. */
  datatype Formatted = Formatted(number: real, digits: nat, suffix: string)

  datatype MetricValue = MetricValue(value: real, unit: string, formatted: Formatted)

  datatype DashboardMetrics = DashboardMetrics(
    downloadSpeed: Option<MetricValue>,
    uploadSpeed: Option<MetricValue>,
    latency: Option<MetricValue>,
    availability: Option<MetricValue>)

  const NO_METRICS := DashboardMetrics(None, None, None, None)

  /** `formatSpeed`: kbps of a megabit or more are shown in Mbps. */
  function FormatSpeed(speed: real, unit: string): (r: Formatted)
    ensures unit == "kbps" ==> (r.suffix == " Mbps" <==> speed >= 1000.0)
    ensures unit == "kbps" && r.suffix == " Mbps" ==> r.number * 1000.0 == speed && r.number >= 1.0
    ensures !(unit == "kbps" && r.suffix == " Mbps") ==> r.number == speed
    ensures r.digits == 0 <==> r.suffix == " kbps"
    ensures r.digits <= 1
  {
    if unit == "kbps" then
      var mbps := speed / 1000.0;
      if mbps >= 1.0 then Formatted(mbps, 1, " Mbps") else Formatted(speed, 0, " kbps")
    else
      assert (" " + unit)[1..] == unit;
      Formatted(speed, 1, " " + unit)
  }

  /** The unit `formatSpeed` chooses, by input unit and size. */
  lemma FormatSpeedUnit(speed: real, unit: string)
    ensures unit == "kbps" && speed >= 1000.0 ==> FormatSpeed(speed, unit) == Formatted(speed / 1000.0, 1, " Mbps")
    ensures unit == "kbps" && speed < 1000.0 ==> FormatSpeed(speed, unit) == Formatted(speed, 0, " kbps")
    ensures unit != "kbps" ==> FormatSpeed(speed, unit) == Formatted(speed, 1, " " + unit)
  {
    if unit == "kbps" {
      assert speed / 1000.0 >= 1.0 <==> speed >= 1000.0;
    }
  }

  /**
   * Building this card throws: the response is fulfilled and its body has no `data` object
   * (reading a field of it throws), or the card's field is `null`, which passes the
   * `!== undefined` test and then has `toFixed` called on it.
   */
  predicate Throws(settled: Settled<MetricResponse>, pick: MetricData -> Field) {
    settled.Fulfilled? && (settled.value.data.None? || pick(settled.value.data.value).Null?)
  }

  /** One card from one settled request: `pick` chooses the field, `format` how it is written. */
  function Card(settled: Settled<MetricResponse>, pick: MetricData -> Field, format: (real, string) -> Formatted): Option<MetricValue>
    requires !Throws(settled, pick)
  {
    match settled
    case Rejected(_) => None
    case Fulfilled(response) =>
      var data := response.data.value;
      match pick(data)
      case Num(v) => Some(MetricValue(v, data.unit, format(v, data.unit)))
      case _ => None
  }

  function Speed(d: MetricData): Field { d.averageSpeed }
  function Latency(d: MetricData): Field { d.averageLatency }
  function Availability(d: MetricData): Field { d.availability }
  function LatencyText(v: real, unit: string): Formatted { Formatted(v, 1, " " + unit) }
  function AvailabilityText(v: real, unit: string): Formatted { Formatted(v, 1, "%") }

  /** Some card of `getAllMetrics` throws inside the `try`. */
  predicate AnyThrows(down: Settled<MetricResponse>, up: Settled<MetricResponse>,
                      latency: Settled<MetricResponse>, availability: Settled<MetricResponse>) {
    Throws(down, Speed) || Throws(up, Speed) || Throws(latency, Latency) || Throws(availability, Availability)
  }

  /** A non-null card holds the number its own fulfilled response carries, with that response's unit. */
  predicate FromResponse(settled: Settled<MetricResponse>, pick: MetricData -> Field, card: Option<MetricValue>) {
    card.Some? ==>
      settled.Fulfilled? && settled.value.data.Some? &&
      pick(settled.value.data.value) == Num(card.value.value) &&
      card.value.unit == settled.value.data.value.unit
  }

  /**
   * `getAllMetrics` over the four settled requests (download, upload, latency, availability).
   * A card that throws inside the `try` (see `Throws`) sends the whole result to the `catch`,
   * which answers with four nulls.
   */
  function GetAllMetrics(down: Settled<MetricResponse>, up: Settled<MetricResponse>,
                         latency: Settled<MetricResponse>, availability: Settled<MetricResponse>): (m: DashboardMetrics)
    ensures FromResponse(down, Speed, m.downloadSpeed) && FromResponse(up, Speed, m.uploadSpeed)
    ensures FromResponse(latency, Latency, m.latency) && FromResponse(availability, Availability, m.availability)
  {
    if AnyThrows(down, up, latency, availability) then NO_METRICS
    else DashboardMetrics(
      Card(down, Speed, FormatSpeed),
      Card(up, Speed, FormatSpeed),
      Card(latency, Latency, LatencyText),
      Card(availability, Availability, AvailabilityText))
  }

  /** A card is null exactly when its request rejected or its field is absent. */
  predicate CardNullIff(settled: Settled<MetricResponse>, pick: MetricData -> Field, card: Option<MetricValue>)
    requires !Throws(settled, pick)
  {
    card.None? <==> settled.Rejected? || pick(settled.value.data.value).Absent?
  }

  lemma AllMetricsFields(down: Settled<MetricResponse>, up: Settled<MetricResponse>,
                         latency: Settled<MetricResponse>, availability: Settled<MetricResponse>)
    requires !AnyThrows(down, up, latency, availability)
    ensures var m := GetAllMetrics(down, up, latency, availability);
      && CardNullIff(down, Speed, m.downloadSpeed) && CardNullIff(up, Speed, m.uploadSpeed)
      && CardNullIff(latency, Latency, m.latency) && CardNullIff(availability, Availability, m.availability)
    ensures var m := GetAllMetrics(down, up, latency, availability);
      && (m.downloadSpeed.Some? ==> m.downloadSpeed.value.formatted == FormatSpeed(m.downloadSpeed.value.value, m.downloadSpeed.value.unit))
      && (m.uploadSpeed.Some? ==> m.uploadSpeed.value.formatted == FormatSpeed(m.uploadSpeed.value.value, m.uploadSpeed.value.unit))
      && (m.latency.Some? ==> m.latency.value.formatted == Formatted(m.latency.value.value, 1, " " + m.latency.value.unit))
      && (m.availability.Some? ==> m.availability.value.formatted == Formatted(m.availability.value.value, 1, "%"))
  {
  }

  /** One request failing never empties another card: replacing the download result by a
      rejection leaves the other three cards as they were. */
  lemma CardsIndependent(down: Settled<MetricResponse>, up: Settled<MetricResponse>,
                         latency: Settled<MetricResponse>, availability: Settled<MetricResponse>, reason: string)
    requires !AnyThrows(down, up, latency, availability)
    ensures var failed := GetAllMetrics(Rejected(reason), up, latency, availability);
      var ok := GetAllMetrics(down, up, latency, availability);
      failed.downloadSpeed == None && failed.uploadSpeed == ok.uploadSpeed &&
      failed.latency == ok.latency && failed.availability == ok.availability
  {
  }

  /**
   * A fulfilled body without `data`, or a `null` in the field a card reads, sends every card to
   * null, even those whose own requests succeeded.
   */
  lemma ThrowingCardNullsAll(down: Settled<MetricResponse>, up: Settled<MetricResponse>,
                             latency: Settled<MetricResponse>, availability: Settled<MetricResponse>)
    requires Throws(down, Speed) || Throws(up, Speed) || Throws(latency, Latency) || Throws(availability, Availability)
    ensures GetAllMetrics(down, up, latency, availability) == NO_METRICS
  {
  }

  /**
   * A download speed left out of the body only nulls the download card, as a rejected request
   * would; the same field sent as `null` nulls all four.
   */
  lemma NullDiffersFromAbsent(response: MetricResponse, data: MetricData, up: Settled<MetricResponse>,
                              latency: Settled<MetricResponse>, availability: Settled<MetricResponse>, reason: string)
    requires response.data == Some(data) && data.averageSpeed.Absent?
    requires !Throws(up, Speed) && !Throws(latency, Latency) && !Throws(availability, Availability)
    ensures GetAllMetrics(Fulfilled(response), up, latency, availability) == GetAllMetrics(Rejected(reason), up, latency, availability)
    ensures var nulled := response.(data := Some(data.(averageSpeed := Null)));
      GetAllMetrics(Fulfilled(nulled), up, latency, availability) == NO_METRICS
  {
  }

  /** `getTimeRangeLabel`. */
  function GetTimeRangeLabel(timeRange: string): (shown: string)
    ensures shown in {"Last Hour", "Last 24 Hours", "Last 7 Days", "Last 30 Days"}
    ensures shown == "Last Hour" <==> timeRange == "last-hour"
  {
    match timeRange
    case "last-hour" => "Last Hour"
    case "last-day" => "Last 24 Hours"
    case "last-week" => "Last 7 Days"
    case "last-month" => "Last 30 Days"
    case _ => "Last 24 Hours"
  }

  lemma TimeRangeLabels(other: string)
    requires other !in {"last-hour", "last-day", "last-week", "last-month"}
    ensures GetTimeRangeLabel("last-hour") == "Last Hour"
    ensures GetTimeRangeLabel("last-day") == "Last 24 Hours"
    ensures GetTimeRangeLabel("last-week") == "Last 7 Days"
    ensures GetTimeRangeLabel("last-month") == "Last 30 Days"
    ensures GetTimeRangeLabel(other) == GetTimeRangeLabel("last-day")
  {
  }
}
