/**
 * The route service: nearest-neighbour ordering of delivery stops, the
 * optimisation result built from it, the choice of a vehicle for a route and
 * the fleet-efficiency report.
 *
 * The haversine distance is the caller-supplied function `dist`; distances
 * are reals.
 */
module RouteCalculator {
  import opened FleetTypes
  import ArrayOps
  import JsText

  /** The great-circle distance in kilometres between two points. */
  type Distance = (Coord, Coord) -> real

  /** A stop still to be ordered: its position in the request and where it is. */
  datatype Candidate = Candidate(index: int, coord: Coord)

  /**
   * The scan of `nearestNeighbor` over the first `n` candidates: the position
   * of a candidate nearest to `from`, the earliest one when several tie.
   */
  function NearestAmong(from: Coord, rem: seq<Candidate>, n: nat, dist: Distance): (k: nat)
    requires 1 <= n <= |rem|
    ensures k < n
    ensures forall j :: 0 <= j < n ==> dist(from, rem[k].coord) <= dist(from, rem[j].coord)
    ensures forall j :: 0 <= j < k ==> dist(from, rem[k].coord) < dist(from, rem[j].coord)
  {
    if n == 1 then 0
    else
      var k := NearestAmong(from, rem, n - 1, dist);
      if dist(from, rem[n - 1].coord) < dist(from, rem[k].coord) then n - 1 else k
  }

  /** `splice(k, 1)`: the sequence without its element at `k`, the others keeping their order. */
  function RemoveAt<T>(s: seq<T>, k: nat): (r: seq<T>)
    requires k < |s|
    ensures |r| == |s| - 1
    ensures multiset(s) == multiset(r) + multiset{s[k]}
    ensures forall i :: 0 <= i < k ==> r[i] == s[i]
    ensures forall i :: k <= i < |r| ==> r[i] == s[i + 1]
  {
    assert s == s[..k] + [s[k]] + s[k + 1..];
    s[..k] + s[k + 1..]
  }

  function Indices(cs: seq<Candidate>): (r: seq<int>)
    ensures |r| == |cs|
    ensures forall i :: 0 <= i < |cs| ==> r[i] == cs[i].index
  {
    seq(|cs|, i requires 0 <= i < |cs| => cs[i].index)
  }

  lemma IndicesRemoveAt(cs: seq<Candidate>, k: nat)
    requires k < |cs|
    ensures Indices(RemoveAt(cs, k)) == RemoveAt(Indices(cs), k)
  {
  }

  /**
   * The greedy tour: from `from`, go to the nearest remaining candidate (the
   * earliest one on ties), and continue from there until none remains. It
   * visits every candidate exactly once.
   */
  function GreedyOrder(from: Coord, rem: seq<Candidate>, dist: Distance): (order: seq<int>)
    ensures |order| == |rem|
    ensures multiset(order) == multiset(Indices(rem))
    decreases |rem|
  {
    if rem == [] then []
    else
      var k := NearestAmong(from, rem, |rem|, dist);
      var rest := GreedyOrder(rem[k].coord, RemoveAt(rem, k), dist);
      IndicesRemoveAt(rem, k);
      assert Indices(rem)[k] == rem[k].index;
      [rem[k].index] + rest
  }

  /** One turn of the greedy loop: the nearest candidate goes after what is already ordered. */
  lemma GreedyStep(order: seq<int>, current: Coord, remaining: seq<Candidate>, k: nat, dist: Distance)
    requires |remaining| >= 1 && k == NearestAmong(current, remaining, |remaining|, dist)
    ensures order + GreedyOrder(current, remaining, dist)
      == (order + [remaining[k].index]) + GreedyOrder(remaining[k].coord, RemoveAt(remaining, k), dist)
  {
    var rest := GreedyOrder(remaining[k].coord, RemoveAt(remaining, k), dist);
    assert GreedyOrder(current, remaining, dist) == [remaining[k].index] + rest;
    assert order + ([remaining[k].index] + rest) == (order + [remaining[k].index]) + rest;
  }

  /** The inner loop of `nearestNeighbor`: the first candidate at the least distance from `current`. */
  method ScanNearest(current: Coord, remaining: seq<Candidate>, dist: Distance) returns (nearestIdx: nat)
    requires |remaining| >= 1
    ensures nearestIdx < |remaining|
    ensures nearestIdx == NearestAmong(current, remaining, |remaining|, dist)
  {
    nearestIdx := 0;
    var minDistance := dist(current, remaining[0].coord);
    for i := 1 to |remaining|
      invariant nearestIdx == NearestAmong(current, remaining, i, dist)
      invariant minDistance == dist(current, remaining[nearestIdx].coord)
    {
      var d := dist(current, remaining[i].coord);
      if d < minDistance {
        minDistance := d;
        nearestIdx := i;
      }
    }
  }

  /**
   * `nearestNeighbor`: repeatedly scans the remaining stops for the nearest
   * one, appends its index and removes it. The end point is accepted and not
   * used.
   */
  method NearestNeighbor(start: Coord, unvisited: seq<Candidate>, end: Option<Coord>, dist: Distance)
    returns (order: seq<int>)
    ensures order == GreedyOrder(start, unvisited, dist)
  {
    order := [];
    var current := start;
    var remaining := unvisited;
    while |remaining| > 0
      invariant order + GreedyOrder(current, remaining, dist) == GreedyOrder(start, unvisited, dist)
      decreases |remaining|
    {
      var nearestIdx := ScanNearest(current, remaining, dist);
      GreedyStep(order, current, remaining, nearestIdx, dist);
      order := order + [remaining[nearestIdx].index];
      current := remaining[nearestIdx].coord;
      remaining := RemoveAt(remaining, nearestIdx);
    }
  }

  /** A stop of an optimisation request. */
  datatype StopInput = StopInput(businessName: string, address: string, coordinates: Coord)

  /** An optimisation request; the end warehouse defaults to the start one. */
  datatype OptimizationRequest = OptimizationRequest(
    startWarehouseId: string, endWarehouseId: Option<string>, stops: seq<StopInput>)

  datatype Optimization = Optimization(
    estimatedDistance: real, estimatedTime: int, optimizedStopOrder: seq<int>, explanation: string)

  datatype OptimizeError =
    | InvalidWarehouseIds  // the thrown 'Invalid warehouse IDs'
    | NoStops              // reading the first stop of an empty order throws

  datatype Outcome = Optimized(result: Optimization) | Failed(error: OptimizeError)

  /** The request's stops as candidates, indexed by their position. */
  function Candidates(stops: seq<StopInput>): (cs: seq<Candidate>)
    ensures |cs| == |stops|
    ensures forall i :: 0 <= i < |stops| ==> cs[i] == Candidate(i, stops[i].coordinates)
  {
    seq(|stops|, i requires 0 <= i < |stops| => Candidate(i, stops[i].coordinates))
  }

  function Range(n: nat): (r: seq<int>)
    ensures |r| == n && forall i :: 0 <= i < n ==> r[i] == i
  {
    seq(n, i requires 0 <= i < n => i)
  }

  lemma CandidateIndices(stops: seq<StopInput>)
    ensures Indices(Candidates(stops)) == Range(|stops|)
  {
  }

  /** A sequence with the multiset of `0 .. n-1` holds exactly those numbers, each once. */
  lemma PermutationOfRange(order: seq<int>, n: nat)
    requires multiset(order) == multiset(Range(n))
    ensures |order| == n
    ensures forall i :: 0 <= i < |order| ==> 0 <= order[i] < n
    ensures forall k :: 0 <= k < n ==> k in order
  {
    assert |order| == |multiset(order)| == |multiset(Range(n))| == n;
    forall i | 0 <= i < |order| ensures 0 <= order[i] < n {
      assert order[i] in multiset(order);
      assert order[i] in Range(n);
    }
    forall k | 0 <= k < n ensures k in order {
      assert Range(n)[k] == k;
      assert k in multiset(Range(n));
    }
  }

  /** The start and end warehouses: the end is the start one unless a non-empty end id is given. */
  function Endpoints(req: OptimizationRequest, warehouses: seq<Warehouse>): (r: Option<(Warehouse, Warehouse)>)
    ensures r.Some? <==> FindWarehouse(warehouses, req.startWarehouseId).Some?
                         && (!Truthy(req.endWarehouseId) || FindWarehouse(warehouses, req.endWarehouseId.value).Some?)
    ensures r.Some? ==> r.value.0.id == req.startWarehouseId && r.value.0 in warehouses && r.value.1 in warehouses
    ensures r.Some? ==> r.value.1.id == if Truthy(req.endWarehouseId) then req.endWarehouseId.value else req.startWarehouseId
  {
    var start := FindWarehouse(warehouses, req.startWarehouseId);
    var end := if Truthy(req.endWarehouseId) then FindWarehouse(warehouses, req.endWarehouseId.value) else start;
    if start.None? || end.None? then None else Some((start.value, end.value))
  }

  /** The sum of the legs between consecutive points. */
  function PathLength(pts: seq<Coord>, dist: Distance): real
    decreases |pts|
  {
    if |pts| < 2 then 0.0 else PathLength(pts[..|pts| - 1], dist) + dist(pts[|pts| - 2], pts[|pts| - 1])
  }

  /** A path joined to another is as long as both plus the leg that joins them. */
  lemma {:induction false} PathLengthAppend(a: seq<Coord>, b: seq<Coord>, dist: Distance)
    requires |a| >= 1 && |b| >= 1
    ensures PathLength(a + b, dist) == PathLength(a, dist) + dist(a[|a| - 1], b[0]) + PathLength(b, dist)
    decreases |b|
  {
    if |b| == 1 {
      assert (a + b)[..|a + b| - 1] == a;
    } else {
      var b' := b[..|b| - 1];
      PathLengthAppend(a, b', dist);
      assert (a + b)[..|a + b| - 1] == a + b';
      assert b'[..|b'|] == b';
      if |b'| >= 2 {
        assert b[..|b| - 1] == b';
      }
    }
  }

  /** With a non-negative distance, a path is never shorter than any of its legs. */
  lemma {:induction false} PathLengthAtLeastLeg(pts: seq<Coord>, i: nat, dist: Distance)
    requires forall x, y :: dist(x, y) >= 0.0
    requires i + 1 < |pts|
    ensures dist(pts[i], pts[i + 1]) <= PathLength(pts, dist)
    decreases |pts|
  {
    PathLengthNonNegative(pts[..|pts| - 1], dist);
    if i + 2 < |pts| {
      PathLengthAtLeastLeg(pts[..|pts| - 1], i, dist);
    }
  }

  lemma {:induction false} PathLengthNonNegative(pts: seq<Coord>, dist: Distance)
    requires forall x, y :: dist(x, y) >= 0.0
    ensures PathLength(pts, dist) >= 0.0
    decreases |pts|
  {
    if |pts| >= 2 {
      PathLengthNonNegative(pts[..|pts| - 1], dist);
    }
  }

  /** Warehouse, the stops in the given order, warehouse. */
  function TourPoints(start: Coord, stops: seq<StopInput>, order: seq<int>, end: Coord): (pts: seq<Coord>)
    requires forall i :: 0 <= i < |order| ==> 0 <= order[i] < |stops|
    ensures |pts| == |order| + 2 && pts[0] == start && pts[|pts| - 1] == end
    ensures forall i :: 0 <= i < |order| ==> pts[i + 1] == stops[order[i]].coordinates
  {
    [start] + seq(|order|, i requires 0 <= i < |order| => stops[order[i]].coordinates) + [end]
  }

  /**
   * The distance loop of `optimizeRoute`: start warehouse to the first stop,
   * stop to stop in order, last stop to the end warehouse.
   */
  method TourDistance(start: Coord, stops: seq<StopInput>, order: seq<int>, end: Coord, dist: Distance)
    returns (totalDistance: real)
    requires |order| >= 1
    requires forall i :: 0 <= i < |order| ==> 0 <= order[i] < |stops|
    ensures totalDistance == PathLength(TourPoints(start, stops, order, end), dist)
  {
    ghost var pts := TourPoints(start, stops, order, end);
    totalDistance := dist(start, stops[order[0]].coordinates);
    assert pts[..2][..1] == [pts[0]];
    for i := 0 to |order| - 1
      invariant totalDistance == PathLength(pts[..i + 2], dist)
    {
      totalDistance := totalDistance + dist(stops[order[i]].coordinates, stops[order[i + 1]].coordinates);
      assert pts[..i + 3][..i + 2] == pts[..i + 2];
    }
    totalDistance := totalDistance + dist(stops[order[|order| - 1]].coordinates, end);
    assert pts[..|order| + 2] == pts;
    assert pts[..|order| + 2][..|order| + 1] == pts[..|order| + 1];
  }

  /** `Math.round`: the nearest integer, halves rounded up. */
  function Round(x: real): (n: int)
    ensures x - 0.5 < n as real <= x + 0.5
  {
    (x + 0.5).Floor
  }

  /** How `${n / 10}` prints a number of tenths: no fraction when it is whole. */
  function TenthsToString(n: int): string
  {
    var m: nat := if n < 0 then -n else n;
    (if n < 0 then "-" else "")
    + JsText.NatToString(m / 10)
    + (if m % 10 == 0 then "" else "." + [JsText.DigitChar(m % 10)])
  }

  function Explanation(tenths: int, minutes: int): string
  {
    "Optimized route using nearest-neighbor algorithm. Total distance: " + TenthsToString(tenths)
    + "km, Estimated time: " + JsText.IntToString(minutes) + " minutes."
  }

  /**
   * The result for a tour of the given length: the distance rounded to a
   * tenth of a kilometre, the driving time at 40 km/h rounded to a minute.
   */
  function Summary(order: seq<int>, total: real): (o: Optimization)
    ensures o.optimizedStopOrder == order
    ensures total * 10.0 - 0.5 < o.estimatedDistance * 10.0 <= total * 10.0 + 0.5
    ensures o.estimatedDistance * 10.0 == (o.estimatedDistance * 10.0).Floor as real
    ensures total * 1.5 - 0.5 < o.estimatedTime as real <= total * 1.5 + 0.5
    ensures o.explanation == Explanation(Round(total * 10.0), o.estimatedTime)
  {
    var minutes := Round(total / 40.0 * 60.0);
    var tenths := Round(total * 10.0);
    Optimization(tenths as real / 10.0, minutes, order, Explanation(tenths, minutes))
  }

  /**
   * `optimizeRoute`: fails on an unknown warehouse, and on a request without
   * stops; otherwise orders the stops greedily from the start warehouse and
   * measures the tour from the start warehouse through the stops to the end
   * warehouse, at 40 km/h.
   */
  method OptimizeRoute(req: OptimizationRequest, warehouses: seq<Warehouse>, dist: Distance) returns (r: Outcome)
    ensures r == Failed(InvalidWarehouseIds) <==> Endpoints(req, warehouses).None?
    ensures r == Failed(NoStops) <==> Endpoints(req, warehouses).Some? && req.stops == []
    ensures r.Optimized? ==> Endpoints(req, warehouses).Some?
    ensures r.Optimized? ==>
      r.result.optimizedStopOrder == GreedyOrder(Endpoints(req, warehouses).value.0.coordinates, Candidates(req.stops), dist)
    ensures r.Optimized? ==> multiset(r.result.optimizedStopOrder) == multiset(Range(|req.stops|))
    ensures r.Optimized? ==> forall i :: 0 <= i < |r.result.optimizedStopOrder| ==> 0 <= r.result.optimizedStopOrder[i] < |req.stops|
    ensures r.Optimized? ==>
      r.result == Summary(r.result.optimizedStopOrder,
        PathLength(TourPoints(Endpoints(req, warehouses).value.0.coordinates, req.stops, r.result.optimizedStopOrder,
                              Endpoints(req, warehouses).value.1.coordinates), dist))
  {
    var ends := Endpoints(req, warehouses);
    if ends.None? {
      return Failed(InvalidWarehouseIds);
    }
    var (startWarehouse, endWarehouse) := ends.value;
    var stops := req.stops;
    var order := NearestNeighbor(startWarehouse.coordinates, Candidates(stops), Some(endWarehouse.coordinates), dist);
    if |order| == 0 {
      return Failed(NoStops);
    }
    CandidateIndices(stops);
    PermutationOfRange(order, |stops|);
    var totalDistance := TourDistance(startWarehouse.coordinates, stops, order, endWarehouse.coordinates, dist);
    r := Optimized(Summary(order, totalDistance));
  }

  /** `available` and `idle` vehicles can take a route. */
  predicate IsFree(v: Vehicle)
  {
    v.status == Available || v.status == Idle
  }

  /**
   * `suggestBestVehicle`: the first free vehicle in fleet order, or none when
   * no vehicle is free. The route is not consulted.
   */
  function SuggestBestVehicle(route: SavedRoute, vehicles: seq<Vehicle>): (r: Option<Vehicle>)
    ensures r.None? <==> forall i :: 0 <= i < |vehicles| ==> !IsFree(vehicles[i])
    ensures r.Some? ==> exists k :: 0 <= k < |vehicles| && r.value == vehicles[k] && IsFree(vehicles[k])
                          && forall j :: 0 <= j < k ==> !IsFree(vehicles[j])
  {
    var free := ArrayOps.Filter(vehicles, IsFree);
    ArrayOps.FilterHead(vehicles, IsFree);
    if |free| == 0 then None else Some(free[0])
  }

  /** Some vehicle is in route on it. */
  predicate IsActive(r: SavedRoute, vehicles: seq<Vehicle>)
  {
    exists i :: 0 <= i < |vehicles| && vehicles[i].currentRouteId == Some(r.id) && vehicles[i].status == InRoute
  }

  /** No vehicle has it as its current route. */
  predicate IsInactive(r: SavedRoute, vehicles: seq<Vehicle>)
  {
    forall i :: 0 <= i < |vehicles| ==> vehicles[i].currentRouteId != Some(r.id)
  }

  datatype Verdict =
    | Recommend(assignments: seq<(string, string)>)  // (vehicle alias, route name) pairs
    | FullCapacity
    | Efficient

  datatype Efficiency = Efficiency(
    activeRoutes: nat, totalRoutes: nat, availableVehicles: nat, totalVehicles: nat,
    inactiveRoutes: nat, verdict: Verdict)

  function Min3(a: nat, b: nat, c: nat): nat
  {
    if a <= b && a <= c then a else if b <= c then b else c
  }

  /** The routes a vehicle of the fleet is on, in the order of `routes`. */
  function ActiveRoutes(routes: seq<SavedRoute>, vehicles: seq<Vehicle>): seq<SavedRoute>
  {
    ArrayOps.Filter(routes, ActiveTest(vehicles))
  }

  function ActiveTest(vehicles: seq<Vehicle>): SavedRoute -> bool
  {
    r => IsActive(r, vehicles)
  }

  /** The routes no vehicle is on, in the order of `routes`. */
  function InactiveRoutes(routes: seq<SavedRoute>, vehicles: seq<Vehicle>): seq<SavedRoute>
  {
    ArrayOps.Filter(routes, InactiveTest(vehicles))
  }

  function InactiveTest(vehicles: seq<Vehicle>): SavedRoute -> bool
  {
    r => IsInactive(r, vehicles)
  }

  /** The idle and available vehicles, in fleet order. */
  function FreeVehicles(vehicles: seq<Vehicle>): seq<Vehicle>
  {
    ArrayOps.Filter(vehicles, IsFree)
  }

  /**
   * The figures of `analyzeRouteEfficiency`: counts of active, free and
   * inactive, and the verdict. A route is never both active and inactive,
   * so the two counts never exceed the number of routes; at most three
   * suggestions pair the free vehicles with the inactive routes in order.
   */
  function Analyze(routes: seq<SavedRoute>, vehicles: seq<Vehicle>): (e: Efficiency)
    ensures e.totalRoutes == |routes| && e.totalVehicles == |vehicles|
    ensures e.activeRoutes + e.inactiveRoutes <= e.totalRoutes
    ensures e.availableVehicles <= e.totalVehicles
    ensures e.verdict.Recommend? <==> e.inactiveRoutes > 0 && e.availableVehicles > 0
    ensures e.verdict.FullCapacity? <==> e.availableVehicles == 0
    ensures e.verdict.Recommend? ==>
      && |e.verdict.assignments| == Min3(e.inactiveRoutes, e.availableVehicles, 3)
      && forall i :: 0 <= i < |e.verdict.assignments| ==>
           (exists v :: v in vehicles && IsFree(v) && v.alias == e.verdict.assignments[i].0)
           && (exists r :: r in routes && IsInactive(r, vehicles) && r.name == e.verdict.assignments[i].1)
    ensures e.activeRoutes == |ActiveRoutes(routes, vehicles)|
    ensures e.availableVehicles == |FreeVehicles(vehicles)|
    ensures e.inactiveRoutes == |InactiveRoutes(routes, vehicles)|
    ensures e.verdict.Recommend? ==>
      forall i :: 0 <= i < |e.verdict.assignments| ==>
        e.verdict.assignments[i] == (FreeVehicles(vehicles)[i].alias, InactiveRoutes(routes, vehicles)[i].name)
  {
    var active := ActiveRoutes(routes, vehicles);
    var free := FreeVehicles(vehicles);
    var inactive := InactiveRoutes(routes, vehicles);
    ArrayOps.FilterDisjointCount(routes, ActiveTest(vehicles), InactiveTest(vehicles));
    var verdict :=
      if |inactive| > 0 && |free| > 0 then
        var n := Min3(|inactive|, |free|, 3);
        Recommend(seq(n, i requires 0 <= i < n => (free[i].alias, inactive[i].name)))
      else if |free| == 0 then FullCapacity
      else Efficient;
    Efficiency(|active|, |routes|, |free|, |vehicles|, |inactive|, verdict)
  }

  /** One suggested assignment, as the report prints it. */
  function SuggestionLine(alias: string, routeName: string): string
  {
    "- " + alias + " \U{2192} " + routeName + "\n"
  }

  /** The same line as the source file spells it: the arrow is stored as the three characters U+00E2 U+2020 U+2019. */
  function SuggestionLineAsWritten(alias: string, routeName: string): string
  {
    "- " + alias + " \U{E2}\U{2020}\U{2019} " + routeName + "\n"
  }

  /**
   * Reads a suggestion line back: the alias before the first arrow, the route
   * after it. Nothing in the application reads report lines; this reader
   * exists only to state which line is legible.
   */
  function ParseSuggestion(line: string): (r: Option<(string, string)>)
  {
    var k := ArrayOps.FirstIndex(line, c => c == '\U{2192}');
    if |line| >= 3 && line[..2] == "- " && line[|line| - 1] == '\n' && 3 <= k && k + 2 <= |line| - 1
       && line[k - 1] == ' ' && line[k + 1] == ' '
    then Some((line[2..k - 1], line[k + 2..|line| - 1]))
    else None
  }

  /** A printed suggestion reads back as the pair it shows, when the alias has no arrow of its own. */
  lemma SuggestionReadsBack(alias: string, routeName: string)
    requires '\U{2192}' !in alias
    ensures ParseSuggestion(SuggestionLine(alias, routeName)) == Some((alias, routeName))
  {
    var line := SuggestionLine(alias, routeName);
    var k := 2 + |alias| + 1;
    assert line[k] == '\U{2192}';
    assert forall j :: 0 <= j < k ==> line[j] != '\U{2192}' by {
      forall j | 0 <= j < k ensures line[j] != '\U{2192}' {
        if 2 <= j < 2 + |alias| {
          assert line[j] == alias[j - 2];
        }
      }
    }
    assert ArrayOps.FirstIndex(line, c => c == '\U{2192}') == k;
    assert line[2..k - 1] == alias;
    assert line[k + 2..|line| - 1] == routeName;
  }

  /** The line as written contains no arrow at all, so it never reads back as a pair. */
  lemma SuggestionAsWrittenUnreadable(alias: string, routeName: string)
    requires '\U{2192}' !in alias && '\U{2192}' !in routeName
    ensures ParseSuggestion(SuggestionLineAsWritten(alias, routeName)) == None
  {
    var line := SuggestionLineAsWritten(alias, routeName);
    forall j | 0 <= j < |line| ensures line[j] != '\U{2192}' {
      if 2 <= j < 2 + |alias| {
        assert line[j] == alias[j - 2];
      } else if 2 + |alias| + 5 <= j < |line| - 1 {
        assert line[j] == routeName[j - (2 + |alias| + 5)];
      }
    }
  }

  function SuggestionLines(assignments: seq<(string, string)>): string
  {
    if assignments == [] then ""
    else
      var last := assignments[|assignments| - 1];
      SuggestionLines(assignments[..|assignments| - 1]) + SuggestionLine(last.0, last.1)
  }

  /** The head of the report: the three counts. */
  function ReportHeader(e: Efficiency): string
  {
    "Fleet Efficiency Analysis:\n\n"
    + "Active Routes: " + JsText.NatToString(e.activeRoutes) + "/" + JsText.NatToString(e.totalRoutes) + "\n"
    + "Available Vehicles: " + JsText.NatToString(e.availableVehicles) + "/" + JsText.NatToString(e.totalVehicles) + "\n"
    + "Inactive Routes: " + JsText.NatToString(e.inactiveRoutes) + "\n\n"
  }

  function RecommendationIntro(e: Efficiency): string
  {
    "Recommendation: You have " + JsText.NatToString(e.availableVehicles) + " available vehicles and "
    + JsText.NatToString(e.inactiveRoutes) + " inactive routes. "
    + "Consider dispatching vehicles to optimize fleet utilization.\n"
    + "\nSuggested assignments:\n"
  }

  const FullCapacityText := "All vehicles are currently deployed or under maintenance. Fleet is at full capacity."
  const EfficientText := "Fleet is operating efficiently with good vehicle-to-route distribution."

  /** What follows the counts: the recommendation, or one of the two closing sentences. */
  function ReportBody(e: Efficiency): string
  {
    match e.verdict
    case Recommend(a) => RecommendationIntro(e) + SuggestionLines(a)
    case FullCapacity => FullCapacityText
    case Efficient => EfficientText
  }

  /** The report text for the figures. */
  function Render(e: Efficiency): string
  {
    ReportHeader(e) + ReportBody(e)
  }

  /** The text of the report for the figures, one suggested assignment per loop turn. */
  method WriteReport(e: Efficiency) returns (analysis: string)
    ensures analysis == Render(e)
  {
    var body;
    match e.verdict {
      case Recommend(a) =>
        body := RecommendationIntro(e);
        ghost var intro := body;
        for i := 0 to |a|
          invariant body == intro + SuggestionLines(a[..i])
        {
          assert a[..i + 1][..i] == a[..i];
          body := body + SuggestionLine(a[i].0, a[i].1);
        }
        assert a[..|a|] == a;
      case FullCapacity =>
        body := FullCapacityText;
      case Efficient =>
        body := EfficientText;
    }
    analysis := ReportHeader(e) + body;
  }

  /**
   * `analyzeRouteEfficiency`: the figures of `Analyze`, written out. The
   * report always opens with the counts, then either recommends assignments,
   * reports full capacity, or reports an efficient fleet.
   */
  method AnalyzeRouteEfficiency(routes: seq<SavedRoute>, vehicles: seq<Vehicle>) returns (analysis: string)
    ensures analysis == Render(Analyze(routes, vehicles))
  {
    analysis := WriteReport(Analyze(routes, vehicles));
  }
}
