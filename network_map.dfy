/**
 * The network map component: which metric value a point shows, the colour band of that value,
 * and the marker effect that clears the marker layer and adds one circle per valid point.
 */
module NetworkMap {
  import opened Wrappers
  import opened Js
  import opened MapTypes

  const Green := "#22c55e"   // excellent
  const Yellow := "#eab308"  // good
  const Orange := "#f97316"  // fair
  const Red := "#ef4444"     // poor

  /** Position of a colour in the band order, worst (red) first. */
  function BandRank(color: string): nat {
    if color == Green then 3 else if color == Yellow then 2 else if color == Orange then 1 else 0
  }

  function OrZero(field: Option<real>): real {
    match field
    case Some(v) => v
    case None => 0.0
  }

  /** `getMetricValue`: the field a metric colours by, 0 when the point lacks it. */
  function GetMetricValue(point: MapPoint, metric: string): (v: real)
    ensures v == OrZero(if metric == "quality" then point.signalQuality else point.signalStrength)
  {
    match metric
    case "signal" => OrZero(point.signalStrength)
    case "quality" => OrZero(point.signalQuality)
    case _ => OrZero(point.signalStrength)
  }

  /** `getColorForValue`: a cascade of `>=` tests against three breakpoints per metric. */
  function GetColorForValue(value: real, metric: string): (color: string)
    ensures color in {Green, Yellow, Orange, Red}
  {
    match metric
    case "signal" =>
      if value >= -70.0 then Green
      else if value >= -85.0 then Yellow
      else if value >= -100.0 then Orange
      else Red
    case "quality" =>
      if value >= 80.0 then Green
      else if value >= 60.0 then Yellow
      else if value >= 40.0 then Orange
      else Red
    case _ =>
      if value >= -70.0 then Green
      else if value >= -85.0 then Yellow
      else if value >= -100.0 then Orange
      else Red
  }

  /** Signal strength bands, each as an interval. */
  lemma SignalBands(value: real)
    ensures GetColorForValue(value, "signal") == Green <==> value >= -70.0
    ensures GetColorForValue(value, "signal") == Yellow <==> -85.0 <= value < -70.0
    ensures GetColorForValue(value, "signal") == Orange <==> -100.0 <= value < -85.0
    ensures GetColorForValue(value, "signal") == Red <==> value < -100.0
  {
  }

  /** Signal quality bands, each as an interval. */
  lemma QualityBands(value: real)
    ensures GetColorForValue(value, "quality") == Green <==> value >= 80.0
    ensures GetColorForValue(value, "quality") == Yellow <==> 60.0 <= value < 80.0
    ensures GetColorForValue(value, "quality") == Orange <==> 40.0 <= value < 60.0
    ensures GetColorForValue(value, "quality") == Red <==> value < 40.0
  {
  }

  /** Any other metric name is coloured with the signal strength bands. */
  lemma OtherMetricsUseSignalBands(value: real, metric: string)
    requires metric != "signal" && metric != "quality"
    ensures GetColorForValue(value, metric) == GetColorForValue(value, "signal")
  {
  }

  /** Raising the value never moves it to a worse band. */
  lemma ColorMonotone(lower: real, higher: real, metric: string)
    requires lower <= higher
    ensures BandRank(GetColorForValue(lower, metric)) <= BandRank(GetColorForValue(higher, metric))
  {
  }

  /** The three reference values of the signal legend. */
  lemma SignalExamples()
    ensures GetColorForValue(-69.0, "signal") == Green
    ensures GetColorForValue(-72.0, "signal") == Yellow
    ensures GetColorForValue(-101.0, "signal") == Red
  {
  }

  // ---------------------------------------------------------------- markers

  /** A circle on the map: its centre and its colour. */
  datatype Marker = Marker(lat: real, lng: real, color: string)

  /** What the marker effect did: returned early, or went through the points with two counters. */
  datatype RenderOutcome = Skipped | Rendered(validPoints: nat, invalidPoints: nat)

  /** The marker a point gets: one exactly when both coordinates parse to numbers in range; it
      sits at those coordinates and has the colour of the point's metric value. */
  function MarkerFor(point: MapPoint, metric: string, parseFloat: string -> Option<real>): (marker: Option<Marker>)
    ensures marker.Some? <==>
      parseFloat(point.latitude).Some? && parseFloat(point.longitude).Some? &&
      InRange(parseFloat(point.latitude).value, parseFloat(point.longitude).value)
    ensures marker.Some? ==>
      marker.value == Marker(parseFloat(point.latitude).value, parseFloat(point.longitude).value,
                             GetColorForValue(GetMetricValue(point, metric), metric))
  {
    match (parseFloat(point.latitude), parseFloat(point.longitude))
    case (Some(lat), Some(lng)) =>
      if InRange(lat, lng) then Some(Marker(lat, lng, GetColorForValue(GetMetricValue(point, metric), metric)))
      else None
    case _ => None
  }

  /**
   * The markers of a list of points, in order (defined from the last point, as a loop adds them):
   * never more markers than points, each in range and with one of the four band colours.
   */
  function MarkersFor(data: seq<MapPoint>, metric: string, parseFloat: string -> Option<real>): (markers: seq<Marker>)
    ensures |markers| <= |data|
    ensures forall m :: m in markers ==> InRange(m.lat, m.lng) && m.color in {Green, Yellow, Orange, Red}
  {
    if data == [] then []
    else
      var last := MarkerFor(data[|data| - 1], metric, parseFloat);
      MarkersFor(data[..|data| - 1], metric, parseFloat) + (if last.Some? then [last.value] else [])
  }

  /** The Leaflet layer group that holds the markers. */
  class MarkerLayer {
    var markers: seq<Marker>

    constructor ()
      ensures markers == []
    {
      markers := [];
    }

    method ClearLayers()
      modifies this
      ensures markers == []
    {
      markers := [];
    }

    method AddLayer(m: Marker)
      modifies this
      ensures markers == old(markers) + [m]
    {
      markers := markers + [m];
    }
  }

  /**
   * The marker effect: clear the layer; stop if loading or if there is an error message; otherwise
   * add the marker of every valid point and count valid and invalid points.
   */
  method RenderMarkers(layer: MarkerLayer, data: seq<MapPoint>, activeMetric: string, isLoading: bool,
                       error: Option<string>, parseFloat: string -> Option<real>)
      returns (outcome: RenderOutcome)
    modifies layer
    ensures isLoading || Truthy(error) ==> outcome == Skipped && layer.markers == []
    ensures !isLoading && !Truthy(error) ==>
      && outcome.Rendered?
      && layer.markers == MarkersFor(data, activeMetric, parseFloat)
      && outcome.validPoints == |layer.markers|
      && outcome.validPoints + outcome.invalidPoints == |data|
  {
    layer.ClearLayers();
    if isLoading {
      return Skipped;
    }
    if error.Some? && error.value != "" {
      return Skipped;
    }
    var validPoints, invalidPoints := 0, 0;
    for i := 0 to |data|
      invariant layer.markers == MarkersFor(data[..i], activeMetric, parseFloat)
      invariant validPoints == |layer.markers| && validPoints + invalidPoints == i
    {
      assert data[..i + 1][..i] == data[..i];
      var point := data[i];
      var lat := parseFloat(point.latitude);
      var lng := parseFloat(point.longitude);
      if lat.None? || lng.None? || lat.value < -90.0 || lat.value > 90.0 || lng.value < -180.0 || lng.value > 180.0 {
        invalidPoints := invalidPoints + 1;
        continue;
      }
      var value := GetMetricValue(point, activeMetric);
      var color := GetColorForValue(value, activeMetric);
      layer.AddLayer(Marker(lat.value, lng.value, color));
      validPoints := validPoints + 1;
    }
    assert data[..|data|] == data;
    return Rendered(validPoints, invalidPoints);
  }
}
