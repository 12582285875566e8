/**
 * The fleet state store: vehicles, routes, the visible and focused
 * selections and the chat transcript, with the operations that change them,
 * and the simulation tick that moves every vehicle that is on a route.
 *
 * Progress is counted in thousandths of a route (0 .. 1000); the haversine
 * "within 0.2 km" test is the caller-supplied predicate `near`.
 */
module FleetContext {
  import opened FleetTypes
  import ArrayOps

  /** The tick's "within 0.2 km" test between the vehicle and a stop. */
  type Near = (Coord, Coord) -> bool

  /** The tick moves a vehicle that is `in_route` with a (non-empty) route id. */
  predicate OnRoute(v: Vehicle)
  {
    v.status == InRoute && Truthy(v.currentRouteId)
  }

  /** `vehicle.routeProgress || 0`. */
  function Progress(v: Vehicle): nat
  {
    v.routeProgress.GetOr(0)
  }

  /** One tick of progress, `Math.min(p + 0.001, 1)`: never past the end, and one step forward otherwise. */
  function NextProgress(p: nat): (q: nat)
    ensures q <= FullProgress
    ensures p <= FullProgress ==> p <= q
    ensures q < FullProgress <==> p + 1 < FullProgress
    ensures q < FullProgress ==> q == p + 1
  {
    if p + 1 < FullProgress then p + 1 else FullProgress
  }

  /**
   * The geometry vertex at or before progress `p` (the floor of
   * `p * (length - 1)`) and the vertex after it, clamped to the last one.
   */
  function SegmentIndices(p: nat, len: nat): (r: (nat, nat))
    requires p <= FullProgress && len >= 1
    ensures r.0 <= r.1 <= len - 1
    ensures r.1 == if r.0 + 1 <= len - 1 then r.0 + 1 else len - 1
    ensures r.0 * FullProgress <= p * (len - 1) < (r.0 + 1) * FullProgress
  {
    var x := p * (len - 1);
    ScaledBound(p, len - 1);
    var g := x / FullProgress;
    assert g <= len - 1;
    (g, if g + 1 < len - 1 then g + 1 else len - 1)
  }

  lemma ScaledBound(p: nat, m: nat)
    requires p <= FullProgress
    ensures p * m <= FullProgress * m
  {
    assert FullProgress * m - p * m == (FullProgress - p) * m;
  }

  predicate Between(a: real, x: real, b: real)
  {
    (a <= x <= b) || (b <= x <= a)
  }

  /**
   * The interpolated position at progress `p`: on the segment between the two
   * bracketing vertices, at the first vertex when `p` is 0 and at the last one
   * when `p` is the whole route.
   */
  function PositionAt(geometry: seq<Coord>, p: nat): (pos: Coord)
    requires |geometry| >= 1 && p <= FullProgress
    ensures var (g, n) := SegmentIndices(p, |geometry|);
      Between(geometry[g].lat, pos.lat, geometry[n].lat) && Between(geometry[g].lng, pos.lng, geometry[n].lng)
    ensures p == 0 ==> pos == geometry[0]
    ensures p == FullProgress ==> pos == geometry[|geometry| - 1]
  {
    var (g, n) := SegmentIndices(p, |geometry|);
    var t := (p * (|geometry| - 1) - g * FullProgress) as real / FullProgress as real;
    assert 0.0 <= t < 1.0;
    var a, b := geometry[g], geometry[n];
    InterpolateBetween(a.lat, b.lat, t);
    InterpolateBetween(a.lng, b.lng, t);
    Coord(a.lat + (b.lat - a.lat) * t, a.lng + (b.lng - a.lng) * t)
  }

  lemma InterpolateBetween(a: real, b: real, t: real)
    requires 0.0 <= t <= 1.0
    ensures Between(a, a + (b - a) * t, b)
  {
    var d := b - a;
    assert d * t + d * (1.0 - t) == d;
    if a <= b {
      NonNegProduct(d, t);
      NonNegProduct(d, 1.0 - t);
    } else {
      NonNegProduct(-d, t);
      NonNegProduct(-d, 1.0 - t);
    }
  }

  lemma NonNegProduct(x: real, y: real)
    requires 0.0 <= x && 0.0 <= y
    ensures 0.0 <= x * y
  {
  }

  /** `route.stops.findIndex(s => !completed.has(s.id))`. */
  function FirstPendingStop(stops: seq<RouteStop>, completed: set<string>): (k: int)
    ensures -1 <= k < |stops|
    ensures k >= 0 ==> stops[k].id !in completed && forall i :: 0 <= i < k ==> stops[i].id in completed
    ensures k < 0 <==> forall i :: 0 <= i < |stops| ==> stops[i].id in completed
  {
    ArrayOps.FirstIndex(stops, (s: RouteStop) => s.id !in completed)
  }

  /**
   * The stop-completion check: at most one stop is newly completed, the first
   * one in route order that is not yet completed, and only when the vehicle is
   * near it.
   */
  function CompleteNextStop(stops: seq<RouteStop>, completed: set<string>, pos: Coord, near: Near): (done: set<string>)
    ensures completed <= done
    ensures |done| <= |completed| + 1
    ensures forall id :: id in done && id !in completed ==>
      exists k :: 0 <= k < |stops| && stops[k].id == id && near(pos, stops[k].coordinates)
        && forall i :: 0 <= i < k ==> stops[i].id in completed
    ensures (exists k :: 0 <= k < |stops| && stops[k].id !in completed && near(pos, stops[k].coordinates)
               && forall i :: 0 <= i < k ==> stops[i].id in completed)
            ==> |done| == |completed| + 1
  {
    var k := FirstPendingStop(stops, completed);
    if k >= 0 && near(pos, stops[k].coordinates) then completed + {stops[k].id} else completed
  }

  /**
   * `Math.max(1, Math.round(30 * (1 - p)))`: the remaining share of a
   * 30-minute route, rounded half up, never below one minute.
   */
  function EtaMinutes(p: nat): (eta: int)
    requires p <= FullProgress
    ensures 1 <= eta <= 30
    ensures 3 * (FullProgress - p) >= 50 ==> eta * 100 - 50 <= 3 * (FullProgress - p) < eta * 100 + 50
    ensures 3 * (FullProgress - p) < 50 ==> eta == 1
  {
    var rounded := (3 * (FullProgress - p) + 50) / 100;
    if rounded < 1 then 1 else rounded
  }

  /** The ETA never grows as progress grows. */
  lemma EtaNonIncreasing(p: nat, q: nat)
    requires p <= q <= FullProgress
    ensures EtaMinutes(q) <= EtaMinutes(p)
  {
    assert 3 * (FullProgress - q) + 50 <= 3 * (FullProgress - p) + 50;
  }

  /** What one tick does to one vehicle. */
  datatype Step =
    | Skip
    | Advance(position: Coord, progress: nat, stopsRemaining: int, eta: int, completedStops: set<string>)
    | Finish(routeId: string)

  /** The tick reads `routeGeometry[geometryIndex]`: the geometry of a vehicle's route must not be empty. */
  predicate GeometryReady(v: Vehicle, routes: seq<SavedRoute>)
  {
    OnRoute(v) && FindRoute(routes, v.currentRouteId.value).Some? ==>
      |FindRoute(routes, v.currentRouteId.value).value.routeGeometry| >= 1
  }

  /** Every vehicle of the fleet can take its step. */
  predicate FleetReady(vs: seq<Vehicle>, routes: seq<SavedRoute>)
  {
    forall i :: 0 <= i < |vs| ==> GeometryReady(vs[i], routes)
  }

  /**
   * One tick for one vehicle: skip it when it is not on a route or its route
   * is unknown; finish it when progress reaches the end; otherwise advance it
   * one thousandth, complete at most one stop and recompute the stops left and
   * the ETA.
   */
  function StepVehicle(v: Vehicle, routes: seq<SavedRoute>, near: Near): (s: Step)
    requires GeometryReady(v, routes)
    ensures s.Skip? <==> !OnRoute(v) || FindRoute(routes, v.currentRouteId.value).None?
    ensures s.Finish? <==> OnRoute(v) && FindRoute(routes, v.currentRouteId.value).Some? && Progress(v) + 1 >= FullProgress
    ensures s.Finish? ==> s.routeId == v.currentRouteId.value
    ensures s.Advance? ==> Progress(v) < s.progress == Progress(v) + 1 < FullProgress
    ensures s.Advance? ==> 1 <= s.eta <= 30
    ensures s.Advance? ==>
      && v.completedStops.GetOr({}) <= s.completedStops
      && |s.completedStops| <= |v.completedStops.GetOr({})| + 1
      && s.stopsRemaining == |FindRoute(routes, v.currentRouteId.value).value.stops| - |s.completedStops|
    ensures s.Advance? ==>
      && s.eta == EtaMinutes(s.progress)
      && s.position == PositionAt(FindRoute(routes, v.currentRouteId.value).value.routeGeometry, s.progress)
      && s.completedStops
         == CompleteNextStop(FindRoute(routes, v.currentRouteId.value).value.stops, v.completedStops.GetOr({}), s.position, near)
  {
    if !OnRoute(v) then Skip
    else
      match FindRoute(routes, v.currentRouteId.value)
      case None => Skip
      case Some(route) =>
        var p := NextProgress(Progress(v));
        var pos := PositionAt(route.routeGeometry, p);
        var done := CompleteNextStop(route.stops, v.completedStops.GetOr({}), pos, near);
        if p >= FullProgress then Finish(v.currentRouteId.value)
        else Advance(pos, p, |route.stops| - |done|, EtaMinutes(p), done)
  }

  /** `updateVehiclePosition`'s rewrite of one vehicle; a missing completed set keeps the old one. */
  function Moved(v: Vehicle, pos: Coord, p: nat, left: int, eta: int, done: Option<set<string>>): Vehicle
  {
    v.(currentPosition := Some(pos), routeProgress := Some(p), stopsRemaining := Some(left), eta := Some(eta),
       completedStops := if done.Some? then done else v.completedStops)
  }

  /** A vehicle whose route is complete: idle, with every route-scoped field cleared. */
  function Retired(v: Vehicle): Vehicle
  {
    v.(status := Idle, currentRouteId := None, routeProgress := Some(0), stopsRemaining := Some(0),
       eta := None, currentPosition := None, completedStops := None)
  }

  /** `dispatchVehicle`'s rewrite of one vehicle. */
  function Dispatched(v: Vehicle, routeId: string, stops: nat): Vehicle
  {
    v.(status := InRoute, currentRouteId := Some(routeId), routeProgress := Some(0), stopsRemaining := Some(stops),
       eta := Some(30), completedStops := Some({}))
  }

  /** `savedRoutes.find(r => r.id === routeId)?.stops.length || 0`. */
  function StopCount(routes: seq<SavedRoute>, routeId: string): (n: nat)
    ensures FindRoute(routes, routeId).None? ==> n == 0
    ensures FindRoute(routes, routeId).Some? ==> n == |FindRoute(routes, routeId).value.stops|
  {
    match FindRoute(routes, routeId)
    case None => 0
    case Some(r) => |r.stops|
  }

  function ApplyStep(v: Vehicle, s: Step): Vehicle
  {
    match s
    case Skip => v
    case Advance(pos, p, left, eta, done) => Moved(v, pos, p, left, eta, Some(done))
    case Finish(_) => Retired(v)
  }

  /** A vehicle after one tick; a tick never changes a vehicle's id. */
  function Ticked(v: Vehicle, routes: seq<SavedRoute>, near: Near): (w: Vehicle)
    requires GeometryReady(v, routes)
    ensures w.id == v.id
  {
    ApplyStep(v, StepVehicle(v, routes, near))
  }

  /** The fleet part-way through a tick: the first `n` vehicles have taken their step. */
  function TickedUpTo(vs: seq<Vehicle>, n: nat, routes: seq<SavedRoute>, near: Near): (r: seq<Vehicle>)
    requires n <= |vs|
    requires FleetReady(vs, routes)
    ensures |r| == |vs|
    ensures forall j :: 0 <= j < |vs| ==> r[j] == if j < n then Ticked(vs[j], routes, near) else vs[j]
    ensures UniqueIds(vs) ==> UniqueIds(r)
  {
    if n == 0 then vs else TickedUpTo(vs, n - 1, routes, near)[n - 1 := Ticked(vs[n - 1], routes, near)]
  }

  /** The route a vehicle completes on this tick, if it completes one. */
  function FinishedBy(v: Vehicle, routes: seq<SavedRoute>, near: Near): (r: set<string>)
    ensures |r| <= 1
    ensures r != {} <==> OnRoute(v) && FindRoute(routes, v.currentRouteId.value).Some? && Progress(v) + 1 >= FullProgress
    ensures r != {} ==> r == {v.currentRouteId.value}
  {
    if OnRoute(v) && FindRoute(routes, v.currentRouteId.value).Some? && Progress(v) + 1 >= FullProgress
    then {v.currentRouteId.value} else {}
  }

  /** The routes of the first `n` vehicles that finish on this tick. */
  function FinishedRoutes(vs: seq<Vehicle>, n: nat, routes: seq<SavedRoute>, near: Near): set<string>
    requires n <= |vs|
  {
    if n == 0 then {} else FinishedRoutes(vs, n - 1, routes, near) + FinishedBy(vs[n - 1], routes, near)
  }

  /** The focused route after the routes in `finished` complete: cleared when it is one of them. */
  function FocusAfter(focus: Option<string>, finished: set<string>): (r: Option<string>)
    ensures r.None? <==> focus.None? || focus.value in finished
    ensures r.Some? ==> r == focus
  {
    if focus.Some? && focus.value in finished then None else focus
  }

  /** Clearing the focus for some routes and then for others is clearing it for all of them at once. */
  lemma FocusAfterUnion(focus: Option<string>, a: set<string>, b: set<string>)
    ensures FocusAfter(FocusAfter(focus, a), b) == FocusAfter(focus, a + b)
  {
  }

  /** The visible routes once the first `n` vehicles have taken their step. */
  function VisibleUpTo(vs: seq<Vehicle>, n: nat, visible: set<string>, routes: seq<SavedRoute>, near: Near): set<string>
    requires n <= |vs|
  {
    if n == 0 then visible else VisibleUpTo(vs, n - 1, visible, routes, near) - FinishedBy(vs[n - 1], routes, near)
  }

  /** The focused route once the first `n` vehicles have taken their step. */
  function FocusUpTo(vs: seq<Vehicle>, n: nat, focus: Option<string>, routes: seq<SavedRoute>, near: Near): Option<string>
    requires n <= |vs|
  {
    if n == 0 then focus else FocusAfter(FocusUpTo(vs, n - 1, focus, routes, near), FinishedBy(vs[n - 1], routes, near))
  }

  lemma DiffUnion(v: set<string>, a: set<string>, b: set<string>)
    ensures (v - a) - b == v - (a + b)
  {
  }

  /** Hiding finished routes one vehicle at a time hides exactly the routes finished so far. */
  lemma {:induction false} VisibleUpToFinished(vs: seq<Vehicle>, n: nat, visible: set<string>, routes: seq<SavedRoute>, near: Near)
    requires n <= |vs|
    ensures VisibleUpTo(vs, n, visible, routes, near) == visible - FinishedRoutes(vs, n, routes, near)
  {
    if n == 0 {
      assert visible - {} == visible;
    } else {
      VisibleUpToFinished(vs, n - 1, visible, routes, near);
      DiffUnion(visible, FinishedRoutes(vs, n - 1, routes, near), FinishedBy(vs[n - 1], routes, near));
    }
  }

  /** Clearing the focus one vehicle at a time clears it exactly when one of the routes finished so far holds it. */
  lemma {:induction false} FocusUpToFinished(vs: seq<Vehicle>, n: nat, focus: Option<string>, routes: seq<SavedRoute>, near: Near)
    requires n <= |vs|
    ensures FocusUpTo(vs, n, focus, routes, near) == FocusAfter(focus, FinishedRoutes(vs, n, routes, near))
  {
    if n > 0 {
      FocusUpToFinished(vs, n - 1, focus, routes, near);
      FocusAfterUnion(focus, FinishedRoutes(vs, n - 1, routes, near), FinishedBy(vs[n - 1], routes, near));
    }
  }

  /** `n` ticks of one vehicle, when nothing else changes its route. */
  function Run(v: Vehicle, routes: seq<SavedRoute>, near: Near, n: nat): Vehicle
    requires GeometryReady(v, routes)
    decreases n
  {
    if n == 0 then v
    else
      var w := ApplyStep(v, StepVehicle(v, routes, near));
      assert GeometryReady(w, routes);
      Run(w, routes, near, n - 1)
  }

  /**
   * A vehicle on a known route with progress `p` stays on it for the next
   * ticks and is retired to idle, every route field cleared, by exactly the
   * (1000 - p)-th tick.
   */
  lemma {:induction false} RunFinishes(v: Vehicle, routes: seq<SavedRoute>, near: Near)
    requires OnRoute(v) && Progress(v) < FullProgress
    requires FindRoute(routes, v.currentRouteId.value).Some?
    requires |FindRoute(routes, v.currentRouteId.value).value.routeGeometry| >= 1
    ensures forall k :: 0 <= k < FullProgress - Progress(v) ==> OnRoute(Run(v, routes, near, k))
    ensures var w := Run(v, routes, near, FullProgress - Progress(v));
      && w.id == v.id && w.alias == v.alias
      && w.status == Idle && w.currentRouteId.None? && w.currentPosition.None?
      && w.eta.None? && w.completedStops.None?
      && w.routeProgress == Some(0) && w.stopsRemaining == Some(0)
    decreases FullProgress - Progress(v)
  {
    var w := ApplyStep(v, StepVehicle(v, routes, near));
    StepOnRoute(v, routes, near);
    if Progress(v) + 1 < FullProgress {
      RunFinishes(w, routes, near);
      assert Run(v, routes, near, FullProgress - Progress(v)) == Run(w, routes, near, FullProgress - Progress(w));
      forall k | 0 <= k < FullProgress - Progress(v) ensures OnRoute(Run(v, routes, near, k)) {
        if k > 0 {
          assert Run(v, routes, near, k) == Run(w, routes, near, k - 1);
        }
      }
    } else {
      assert Run(v, routes, near, 1) == Run(w, routes, near, 0);
    }
  }

  /** One tick keeps a vehicle on its known route one thousandth further on, or retires it at the end. */
  lemma StepOnRoute(v: Vehicle, routes: seq<SavedRoute>, near: Near)
    requires OnRoute(v) && Progress(v) < FullProgress
    requires FindRoute(routes, v.currentRouteId.value).Some?
    requires |FindRoute(routes, v.currentRouteId.value).value.routeGeometry| >= 1
    ensures var w := ApplyStep(v, StepVehicle(v, routes, near));
      Progress(v) + 1 < FullProgress ==>
        w.currentRouteId == v.currentRouteId && OnRoute(w) && Progress(w) == Progress(v) + 1
    ensures Progress(v) + 1 >= FullProgress ==> ApplyStep(v, StepVehicle(v, routes, near)) == Retired(v)
  {
  }

  /**
   * A vehicle dispatched onto a known route with a non-empty id starts on it
   * with progress 0, one pending count per stop and a 30-minute ETA, and is
   * back to idle after exactly 1000 ticks.
   */
  lemma DispatchThenRun(v: Vehicle, routeId: string, routes: seq<SavedRoute>, near: Near)
    requires routeId != "" && FindRoute(routes, routeId).Some?
    requires |FindRoute(routes, routeId).value.routeGeometry| >= 1
    ensures var d := Dispatched(v, routeId, StopCount(routes, routeId));
      && OnRoute(d) && Progress(d) == 0 && d.eta == Some(30)
      && d.stopsRemaining == Some(|FindRoute(routes, routeId).value.stops|)
      && Run(d, routes, near, FullProgress).status == Idle
      && Run(d, routes, near, FullProgress).currentRouteId.None?
  {
    var d := Dispatched(v, routeId, StopCount(routes, routeId));
    assert OnRoute(d) && Progress(d) == 0;
    RunFinishes(d, routes, near);
    assert FullProgress - Progress(d) == FullProgress;
  }

  predicate UniqueIds(vs: seq<Vehicle>)
  {
    forall i, j :: 0 <= i < j < |vs| ==> vs[i].id != vs[j].id
  }

  /** `vehicles.map(v => v.id === id ? f(v) : v)`. */
  function MapById(vs: seq<Vehicle>, id: string, f: Vehicle -> Vehicle): (r: seq<Vehicle>)
    ensures |r| == |vs|
    ensures forall i :: 0 <= i < |vs| ==> r[i] == if vs[i].id == id then f(vs[i]) else vs[i]
  {
    seq(|vs|, i requires 0 <= i < |vs| => if vs[i].id == id then f(vs[i]) else vs[i])
  }

  /**
   * With unique ids, mapping over the vehicle with the id of position `i`
   * rewrites that position alone, and ids stay unique when `f` keeps the id.
   */
  lemma MapByIdAt(vs: seq<Vehicle>, i: nat, f: Vehicle -> Vehicle)
    requires UniqueIds(vs) && i < |vs|
    requires f(vs[i]).id == vs[i].id
    ensures MapById(vs, vs[i].id, f) == vs[i := f(vs[i])]
    ensures UniqueIds(MapById(vs, vs[i].id, f))
  {
  }

  /** `toggleRouteVisibility`'s new set: the id's membership flips, nothing else changes. */
  function Toggled(s: set<string>, id: string): (r: set<string>)
    ensures id in r <==> id !in s
    ensures forall x :: x != id ==> (x in r <==> x in s)
  {
    if id in s then s - {id} else s + {id}
  }

  /** Toggling twice gives back the set. */
  lemma ToggleTwice(s: set<string>, id: string)
    ensures Toggled(Toggled(s, id), id) == s
  {
  }

  /**
   * The route `setFocusedVehicle` reveals and focuses: the current route of
   * the first vehicle with that id, when both the id and the route id are
   * non-empty.
   */
  function RouteOfVehicle(vehicles: seq<Vehicle>, vehicleId: Option<string>): (r: Option<string>)
    ensures r.Some? <==> Truthy(vehicleId) && FindVehicle(vehicles, vehicleId.value).Some?
                         && Truthy(FindVehicle(vehicles, vehicleId.value).value.currentRouteId)
    ensures r.Some? ==> r.value != ""
    ensures r.Some? ==> exists i :: 0 <= i < |vehicles| && vehicles[i].id == vehicleId.value && vehicles[i].currentRouteId == r
  {
    if !Truthy(vehicleId) then None
    else
      match FindVehicle(vehicles, vehicleId.value)
      case None => None
      case Some(v) => if Truthy(v.currentRouteId) then v.currentRouteId else None
  }

  /**
   * The tick's work for the vehicle at position `i`: its step is applied
   * there, and a finished route is hidden and unfocused.
   */
  method StepOne(vs: seq<Vehicle>, visible: set<string>, focus: Option<string>, i: nat, routes: seq<SavedRoute>, near: Near)
    returns (vs': seq<Vehicle>, visible': set<string>, focus': Option<string>)
    requires UniqueIds(vs) && i < |vs| && GeometryReady(vs[i], routes)
    ensures vs' == vs[i := Ticked(vs[i], routes, near)]
    ensures visible' == visible - FinishedBy(vs[i], routes, near)
    ensures focus' == FocusAfter(focus, FinishedBy(vs[i], routes, near))
  {
    var v := vs[i];
    var step := StepVehicle(v, routes, near);
    assert Ticked(v, routes, near) == ApplyStep(v, step);
    assert FinishedBy(v, routes, near) == if step.Finish? then {step.routeId} else {};
    vs', visible', focus' := vs, visible, focus;
    match step {
      case Skip =>
        assert vs == vs[i := v];
      case Advance(pos, p, left, eta, done) =>
        MapByIdAt(vs, i, w => Moved(w, pos, p, left, eta, Some(done)));
        vs' := MapById(vs, v.id, w => Moved(w, pos, p, left, eta, Some(done)));
      case Finish(routeId) =>
        MapByIdAt(vs, i, Retired);
        vs' := MapById(vs, v.id, Retired);
        if focus == Some(routeId) {
          focus' := None;
        }
        visible' := visible - {routeId};
    }
  }

  /** The tick's pass over the fleet, vehicle by vehicle. */
  method TickAll(fleet: seq<Vehicle>, visible0: set<string>, focus0: Option<string>, routes: seq<SavedRoute>, near: Near)
    returns (vs: seq<Vehicle>, visible: set<string>, focus: Option<string>)
    requires UniqueIds(fleet) && FleetReady(fleet, routes)
    ensures vs == TickedUpTo(fleet, |fleet|, routes, near)
    ensures visible == visible0 - FinishedRoutes(fleet, |fleet|, routes, near)
    ensures focus == FocusAfter(focus0, FinishedRoutes(fleet, |fleet|, routes, near))
  {
    vs, visible, focus := fleet, visible0, focus0;
    var i := 0;
    while i < |fleet|
      invariant 0 <= i <= |fleet|
      invariant vs == TickedUpTo(fleet, i, routes, near)
      invariant visible == VisibleUpTo(fleet, i, visible0, routes, near)
      invariant focus == FocusUpTo(fleet, i, focus0, routes, near)
    {
      vs, visible, focus := StepOne(vs, visible, focus, i, routes, near);
      i := i + 1;
    }
    VisibleUpToFinished(fleet, i, visible0, routes, near);
    FocusUpToFinished(fleet, i, focus0, routes, near);
  }

  class FleetStore {
    var vehicles: seq<Vehicle>
    var savedRoutes: seq<SavedRoute>
    const warehouses: seq<Warehouse>
    var visibleRouteIds: set<string>
    var focusedRouteId: Option<string>
    var focusedWarehouseId: Option<string>
    var focusedVehicleId: Option<string>
    var chatMessages: seq<ChatMessage>

    /** Every update of a vehicle goes by id, so ids identify vehicles. */
    predicate Valid()
      reads this
    {
      UniqueIds(vehicles)
    }

    /** The store as mounted: seed data, nothing visible or focused. */
    constructor (vehicles0: seq<Vehicle>, routes0: seq<SavedRoute>, warehouses0: seq<Warehouse>, chat0: seq<ChatMessage>)
      requires UniqueIds(vehicles0)
      ensures Valid()
      ensures vehicles == vehicles0 && savedRoutes == routes0 && warehouses == warehouses0 && chatMessages == chat0
      ensures visibleRouteIds == {} && focusedRouteId.None? && focusedWarehouseId.None? && focusedVehicleId.None?
    {
      vehicles, savedRoutes, warehouses, chatMessages := vehicles0, routes0, warehouses0, chat0;
      visibleRouteIds := {};
      focusedRouteId, focusedWarehouseId, focusedVehicleId := None, None, None;
    }

    /** Installs the routes returned by the geometry fetch. */
    method SetSavedRoutes(routes: seq<SavedRoute>)
      modifies this`savedRoutes
      ensures savedRoutes == routes
    {
      savedRoutes := routes;
    }

    method ToggleRouteVisibility(routeId: string)
      modifies this`visibleRouteIds, this`focusedRouteId
      ensures visibleRouteIds == Toggled(old(visibleRouteIds), routeId)
      ensures focusedRouteId ==
        if routeId in old(visibleRouteIds) && old(focusedRouteId) == Some(routeId) then None else old(focusedRouteId)
    {
      if routeId in visibleRouteIds {
        visibleRouteIds := visibleRouteIds - {routeId};
        if focusedRouteId == Some(routeId) {
          focusedRouteId := None;
        }
      } else {
        visibleRouteIds := visibleRouteIds + {routeId};
      }
    }

    method SetFocusedRoute(routeId: Option<string>)
      modifies this`focusedRouteId
      ensures focusedRouteId == routeId
    {
      focusedRouteId := routeId;
    }

    method SetFocusedWarehouse(warehouseId: Option<string>)
      modifies this`focusedWarehouseId
      ensures focusedWarehouseId == warehouseId
    {
      focusedWarehouseId := warehouseId;
    }

    /** Appends to the transcript; nothing already in it changes. */
    method AddChatMessage(m: ChatMessage)
      modifies this`chatMessages
      ensures chatMessages == old(chatMessages) + [m]
    {
      chatMessages := chatMessages + [m];
    }

    /**
     * Resets every vehicle with the id onto the route: in route, progress 0,
     * the route's stop count, a 30-minute ETA, no completed stops. Every other
     * vehicle is unchanged.
     */
    method DispatchVehicle(vehicleId: string, routeId: string)
      requires Valid()
      modifies this`vehicles
      ensures Valid()
      ensures |vehicles| == |old(vehicles)|
      ensures forall i :: 0 <= i < |vehicles| ==>
        vehicles[i] == if old(vehicles[i]).id == vehicleId
                       then Dispatched(old(vehicles[i]), routeId, StopCount(savedRoutes, routeId))
                       else old(vehicles[i])
    {
      var stops := StopCount(savedRoutes, routeId);
      vehicles := MapById(vehicles, vehicleId, w => Dispatched(w, routeId, stops));
    }

    /** Overwrites position, progress, stops left and ETA (and the completed set, when given) of the vehicle with the id. */
    method UpdateVehiclePosition(vehicleId: string, position: Coord, progress: nat, stopsRemaining: int, eta: int,
                                 completedStops: Option<set<string>>)
      requires Valid()
      modifies this`vehicles
      ensures Valid()
      ensures |vehicles| == |old(vehicles)|
      ensures forall i :: 0 <= i < |vehicles| ==>
        vehicles[i] == if old(vehicles[i]).id == vehicleId
                       then Moved(old(vehicles[i]), position, progress, stopsRemaining, eta, completedStops)
                       else old(vehicles[i])
    {
      vehicles := MapById(vehicles, vehicleId, w => Moved(w, position, progress, stopsRemaining, eta, completedStops));
    }

    /**
     * One simulation tick: every vehicle takes its step; each route whose
     * vehicle finished is hidden, and the focus is cleared when it was on one.
     * The updates are batched and take effect together when the tick ends.
     */
    method Tick(near: Near)
      requires Valid()
      requires FleetReady(vehicles, savedRoutes)
      modifies this`vehicles, this`visibleRouteIds, this`focusedRouteId
      ensures Valid()
      ensures vehicles == TickedUpTo(old(vehicles), |old(vehicles)|, savedRoutes, near)
      ensures visibleRouteIds == old(visibleRouteIds) - FinishedRoutes(old(vehicles), |old(vehicles)|, savedRoutes, near)
      ensures focusedRouteId == FocusAfter(old(focusedRouteId), FinishedRoutes(old(vehicles), |old(vehicles)|, savedRoutes, near))
    {
      vehicles, visibleRouteIds, focusedRouteId := TickAll(vehicles, visibleRouteIds, focusedRouteId, savedRoutes, near);
    }

    /** Focuses the vehicle and, when it is on a route, shows and focuses that route. */
    method SetFocusedVehicle(vehicleId: Option<string>)
      modifies this`focusedVehicleId, this`visibleRouteIds, this`focusedRouteId
      ensures focusedVehicleId == vehicleId
      ensures var r := RouteOfVehicle(vehicles, vehicleId);
        if r.Some?
        then visibleRouteIds == old(visibleRouteIds) + {r.value} && focusedRouteId == r
        else visibleRouteIds == old(visibleRouteIds) && focusedRouteId == old(focusedRouteId)
    {
      focusedVehicleId := vehicleId;
      var r := RouteOfVehicle(vehicles, vehicleId);
      if r.Some? {
        if r.value !in visibleRouteIds {
          visibleRouteIds := visibleRouteIds + {r.value};
        }
        focusedRouteId := r;
      }
    }
  }
}
