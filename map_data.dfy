/**
 * The map-data hook: the coordinate filter applied to every response, the state a fetch leaves
 * behind, and the debounce discipline that turns a burst of viewport changes into one fetch.
 * Time is a sequence of events (`UpdateBounds`, `TimerFires`, `Refetch`, `Unmount`); a fetch is one
 * step whose outcome is given.
 */
module MapData {
  import opened Wrappers
  import opened Js
  import opened MapTypes
  import NetworkMap

  const DEBOUNCE_MS := 500
  const DEFAULT_ERROR := "Failed to fetch map data"

  // ---------------------------------------------------------------- the point filter

  /** Both coordinate fields are present, not empty, and not white space only. */
  predicate HasCoordFields(point: MapPoint) {
    point.latitude != "" && point.longitude != "" && Trim(point.latitude) != "" && Trim(point.longitude) != ""
  }

  /** The filter predicate: coordinate fields present, both parse, and both in range. */
  predicate KeepPoint(point: MapPoint, parseFloat: string -> Option<real>) {
    HasCoordFields(point) &&
    match (parseFloat(point.latitude), parseFloat(point.longitude))
    case (Some(lat), Some(lng)) => InRange(lat, lng)
    case _ => false
  }

  /** `a` is `b` with some elements left out, the rest in their original order. */
  predicate IsSubsequence<T(==)>(a: seq<T>, b: seq<T>) {
    if a == [] then true
    else if b == [] then false
    else if a[0] == b[0] then IsSubsequence(a[1..], b[1..])
    else IsSubsequence(a, b[1..])
  }

  lemma {:induction false} SubsequenceDropFirst<T>(a: seq<T>, b: seq<T>)
    requires a != [] && IsSubsequence(a, b)
    ensures IsSubsequence(a[1..], b)
    decreases |a| + |b|, 0
  {
    if a[0] == b[0] {
      SubsequenceExtend(a[1..], b[1..], b[0]);
    } else {
      SubsequenceDropFirst(a, b[1..]);
      SubsequenceExtend(a[1..], b[1..], b[0]);
    }
  }

  lemma {:induction false} SubsequenceExtend<T>(a: seq<T>, b: seq<T>, x: T)
    requires IsSubsequence(a, b)
    ensures IsSubsequence(a, [x] + b)
    decreases |a| + |b|, 1
  {
    var xb := [x] + b;
    assert xb[1..] == b;
    if a != [] && a[0] == x {
      SubsequenceDropFirst(a, b);
    }
  }

  /** The `filter` over the response's points. */
  function FilterPoints(points: seq<MapPoint>, parseFloat: string -> Option<real>): (kept: seq<MapPoint>)
    ensures |kept| <= |points|
    ensures forall p :: p in kept <==> p in points && KeepPoint(p, parseFloat)
    ensures forall p :: multiset(kept)[p] == if KeepPoint(p, parseFloat) then multiset(points)[p] else 0
  {
    if points == [] then []
    else
      var rest := FilterPoints(points[1..], parseFloat);
      assert forall p :: p in points <==> p == points[0] || p in points[1..];
      FilterStepCounts(points, rest, parseFloat);
      if KeepPoint(points[0], parseFloat) then [points[0]] + rest else rest
  }

  /** One step of `FilterPoints`: keeping or dropping the first point preserves the counts. */
  lemma FilterStepCounts(points: seq<MapPoint>, rest: seq<MapPoint>, parseFloat: string -> Option<real>)
    requires points != []
    requires forall p :: multiset(rest)[p] == if KeepPoint(p, parseFloat) then multiset(points[1..])[p] else 0
    ensures var kept := if KeepPoint(points[0], parseFloat) then [points[0]] + rest else rest;
      forall p :: multiset(kept)[p] == if KeepPoint(p, parseFloat) then multiset(points)[p] else 0
  {
    var first := points[0];
    assert points == [first] + points[1..];
    assert multiset(points) == multiset{first} + multiset(points[1..]);
    assert multiset([first] + rest) == multiset{first} + multiset(rest);
  }

  /** The filtered list keeps the surviving points in their original order. */
  lemma {:induction false} FilterIsSubsequence(points: seq<MapPoint>, parseFloat: string -> Option<real>)
    ensures IsSubsequence(FilterPoints(points, parseFloat), points)
  {
    if points != [] {
      FilterIsSubsequence(points[1..], parseFloat);
      var rest := FilterPoints(points[1..], parseFloat);
      if KeepPoint(points[0], parseFloat) {
        var kept := [points[0]] + rest;
        assert kept[1..] == rest;
      } else {
        SubsequenceExtend(rest, points[1..], points[0]);
        assert [points[0]] + points[1..] == points;
      }
    }
  }

  /** Points the filter kept all become markers on the map: the map's own coordinate check never
      rejects one of them. */
  lemma {:induction false} KeptPointsAllRender(points: seq<MapPoint>, metric: string, parseFloat: string -> Option<real>)
    requires forall p :: p in points ==> KeepPoint(p, parseFloat)
    ensures |NetworkMap.MarkersFor(points, metric, parseFloat)| == |points|
  {
    if points != [] {
      var init := points[..|points| - 1];
      assert forall p :: p in init ==> p in points;
      KeptPointsAllRender(init, metric, parseFloat);
      assert points[|points| - 1] in points;
    }
  }

  // ---------------------------------------------------------------- one fetch

  /** The body of a `getMapData` response; `points` is `None` when `data` or `data.points` is missing. */
  datatype MapResponse = MapResponse(success: bool, message: Option<string>, points: Option<seq<MapPoint>>)

  /** What awaiting `getMapData` produced. */
  datatype FetchResult = Responded(response: MapResponse) | Threw(thrown: Thrown)

  predicate Succeeded(result: FetchResult) {
    result.Responded? && result.response.success && result.response.points.Some?
  }

  /** The error text a failed fetch leaves in `error`. */
  function FailureMessage(result: FetchResult): (message: string)
    requires !Succeeded(result)
    ensures result.Responded? && Truthy(result.response.message) ==> message == result.response.message.value
    ensures result.Responded? && !Truthy(result.response.message) ==> message == DEFAULT_ERROR
    ensures result.Threw? && result.thrown.ErrorObject? ==> message == result.thrown.message
    ensures result.Threw? && result.thrown.NonErrorValue? ==> message == DEFAULT_ERROR
  {
    match result
    case Responded(response) =>
      // the response is rethrown as `new Error(response.message || DEFAULT_ERROR)`
      MessageOr(ErrorObject(if Truthy(response.message) then response.message.value else DEFAULT_ERROR), DEFAULT_ERROR)
    case Threw(thrown) =>
      MessageOr(thrown, DEFAULT_ERROR)
  }

  /** The pending debounce timer: the bounds its callback will fetch and its delay. */
  datatype Timer = Timer(bounds: Bounds, delayMs: nat)

  class MapDataLoader {
    var mapData: seq<MapPoint>
    var isLoading: bool
    var error: Option<string>
    var bounds: Option<Bounds>
    /** `debounceTimerRef.current`, as far as it is still pending: at most one timer. */
    var pendingTimer: Option<Timer>
    /** The argument of every `getMapData` call made so far, in order. */
    var requests: seq<Option<Bounds>>
    const parseFloat: string -> Option<real>

    /** Only points that pass the filter are ever shown. */
    ghost predicate Valid()
      reads this
    {
      forall p :: p in mapData ==> KeepPoint(p, parseFloat)
    }

    constructor (initialBounds: Option<Bounds>, parseFloat: string -> Option<real>)
      ensures Valid()
      ensures mapData == [] && isLoading && error == None && bounds == initialBounds
      ensures pendingTimer == None && requests == [] && this.parseFloat == parseFloat
    {
      mapData := [];
      isLoading := true;
      error := None;
      bounds := initialBounds;
      pendingTimer := None;
      requests := [];
      this.parseFloat := parseFloat;
    }

    /** `fetchMapData`: one request with `currentBounds`; afterwards the filtered points or an error. */
    method FetchMapData(currentBounds: Option<Bounds>, result: FetchResult)
      requires Valid()
      modifies this
      ensures Valid()
      ensures requests == old(requests) + [currentBounds]
      ensures !isLoading
      ensures Succeeded(result) ==> error == None && mapData == FilterPoints(result.response.points.value, parseFloat)
      ensures !Succeeded(result) ==> error == Some(FailureMessage(result)) && mapData == []
      ensures bounds == old(bounds) && pendingTimer == old(pendingTimer)
    {
      isLoading := true;
      error := None;
      requests := requests + [currentBounds];
      if Succeeded(result) {
        mapData := FilterPoints(result.response.points.value, parseFloat);
      } else {
        error := Some(FailureMessage(result));
        mapData := [];
      }
      isLoading := false;
    }

    /** `debouncedFetchMapData`: cancel the pending timer, if any, and start a new 500 ms one. */
    method DebouncedFetch(currentBounds: Bounds)
      modifies this
      ensures pendingTimer == Some(Timer(currentBounds, DEBOUNCE_MS))
      ensures mapData == old(mapData) && isLoading == old(isLoading) && error == old(error)
      ensures bounds == old(bounds) && requests == old(requests)
    {
      if pendingTimer.Some? {
        pendingTimer := None;  // clearTimeout
      }
      pendingTimer := Some(Timer(currentBounds, DEBOUNCE_MS));
    }

    /** The bounds effect as it runs on mount: debounce when there are bounds, else fetch at once. */
    method Mount(result: FetchResult)
      requires Valid()
      modifies this
      ensures Valid()
      ensures bounds.Some? ==> requests == old(requests) && pendingTimer == Some(Timer(bounds.value, DEBOUNCE_MS))
      ensures bounds.Some? ==> mapData == old(mapData) && isLoading == old(isLoading) && error == old(error)
      ensures bounds.None? ==> requests == old(requests) + [None] && pendingTimer == old(pendingTimer) && !isLoading
      ensures bounds.None? && Succeeded(result) ==> error == None && mapData == FilterPoints(result.response.points.value, parseFloat)
      ensures bounds.None? && !Succeeded(result) ==> error == Some(FailureMessage(result)) && mapData == []
      ensures bounds == old(bounds)
    {
      if bounds.Some? {
        DebouncedFetch(bounds.value);
      } else {
        FetchMapData(None, result);
      }
    }

    /** `updateBounds`: store the new bounds; the bounds effect then re-arms the debounce timer. */
    method UpdateBounds(newBounds: Bounds)
      modifies this
      ensures bounds == Some(newBounds) && pendingTimer == Some(Timer(newBounds, DEBOUNCE_MS))
      ensures mapData == old(mapData) && isLoading == old(isLoading) && error == old(error)
      ensures requests == old(requests)
    {
      bounds := Some(newBounds);
      DebouncedFetch(newBounds);
    }

    /** The quiet period elapsed: a pending timer runs its fetch; a cleared one does nothing. */
    method TimerFires(result: FetchResult)
      requires Valid()
      modifies this
      ensures Valid()
      ensures pendingTimer == None && bounds == old(bounds)
      ensures old(pendingTimer).Some? ==> requests == old(requests) + [Some(old(pendingTimer).value.bounds)] && !isLoading
      ensures old(pendingTimer).Some? && Succeeded(result) ==>
        error == None && mapData == FilterPoints(result.response.points.value, parseFloat)
      ensures old(pendingTimer).Some? && !Succeeded(result) ==> error == Some(FailureMessage(result)) && mapData == []
      ensures old(pendingTimer).None? ==>
        requests == old(requests) && mapData == old(mapData) && isLoading == old(isLoading) && error == old(error)
    {
      if pendingTimer.Some? {
        var target := pendingTimer.value.bounds;
        pendingTimer := None;
        FetchMapData(Some(target), result);
      }
    }

    /** `refetch`: fetch the current bounds at once, leaving any pending timer alone. */
    method Refetch(result: FetchResult)
      requires Valid()
      modifies this
      ensures Valid()
      ensures requests == old(requests) + [bounds] && !isLoading
      ensures Succeeded(result) ==> error == None && mapData == FilterPoints(result.response.points.value, parseFloat)
      ensures !Succeeded(result) ==> error == Some(FailureMessage(result)) && mapData == []
      ensures pendingTimer == old(pendingTimer) && bounds == old(bounds)
    {
      FetchMapData(bounds, result);
    }

    /** Unmount cleanup: clear the pending timer, so that no fetch fires afterwards. */
    method Unmount()
      modifies this
      ensures pendingTimer == None
      ensures mapData == old(mapData) && isLoading == old(isLoading) && error == old(error)
      ensures bounds == old(bounds) && requests == old(requests)
    {
      if pendingTimer.Some? {
        pendingTimer := None;
      }
    }
  }

  /**
   * A burst of viewport changes followed by a quiet period: exactly one request goes out, for the
   * last bounds of the burst, whatever timer was pending before.
   */
  method BoundsBurst(loader: MapDataLoader, burst: seq<Bounds>, result: FetchResult)
    requires loader.Valid() && burst != []
    modifies loader
    ensures loader.Valid()
    ensures loader.requests == old(loader.requests) + [Some(burst[|burst| - 1])]
    ensures loader.bounds == Some(burst[|burst| - 1]) && loader.pendingTimer == None
  {
    for i := 0 to |burst|
      invariant loader.Valid()
      invariant loader.requests == old(loader.requests)
      invariant i > 0 ==> loader.pendingTimer == Some(Timer(burst[i - 1], DEBOUNCE_MS)) && loader.bounds == Some(burst[i - 1])
    {
      loader.UpdateBounds(burst[i]);
    }
    loader.TimerFires(result);
  }

  /** Data the loader holds is drawn in full: rendering it adds one marker per point, none invalid. */
  method RenderLoadedData(loader: MapDataLoader, layer: NetworkMap.MarkerLayer, activeMetric: string)
      returns (outcome: NetworkMap.RenderOutcome)
    requires loader.Valid() && !loader.isLoading && !Truthy(loader.error)
    modifies layer
    ensures outcome == NetworkMap.Rendered(|loader.mapData|, 0)
    ensures |layer.markers| == |loader.mapData|
  {
    outcome := NetworkMap.RenderMarkers(layer, loader.mapData, activeMetric, loader.isLoading, loader.error, loader.parseFloat);
    KeptPointsAllRender(loader.mapData, activeMetric, loader.parseFloat);
  }
}
