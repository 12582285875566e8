/**
 * The entities of the fleet dashboard: warehouses, routes with their stops
 * and geometry, vehicles, and the chat transcript with its optional tables.
 */
module FleetTypes {
  import ArrayOps

  datatype Option<+T> = None | Some(value: T) {
    function GetOr(default: T): T
    {
      if Some? then value else default
    }
  }

  /** JavaScript truthiness of an optional string: present and not empty. */
  predicate Truthy(s: Option<string>)
  {
    s.Some? && s.value != ""
  }

  /** A point in degrees. The source stores floating-point numbers; here they are reals. */
  datatype Coord = Coord(lat: real, lng: real)

  datatype Warehouse = Warehouse(id: string, name: string, address: string, coordinates: Coord)

  datatype RouteStop = RouteStop(id: string, stopNumber: int, businessName: string, address: string, coordinates: Coord)

  /** A saved route: ordered stops and the polyline a vehicle follows. */
  datatype SavedRoute = SavedRoute(
    id: string,
    name: string,
    originWarehouseId: string,
    destinationWarehouseId: string,
    stops: seq<RouteStop>,
    routeGeometry: seq<Coord>,
    color: string)

  datatype VehicleStatus = Idle | InRoute | Maintenance | Available

  /** The status as the source spells it. */
  function StatusName(s: VehicleStatus): string
  {
    match s
    case Idle => "idle"
    case InRoute => "in_route"
    case Maintenance => "maintenance"
    case Available => "available"
  }

  /** Route progress is counted in thousandths of the route: this is the whole route. */
  const FullProgress: nat := 1000

  /**
   * A vehicle. The route-scoped fields are optional, as in the source;
   * `routeProgress` is in thousandths.
   */
  datatype Vehicle = Vehicle(
    id: string,
    alias: string,
    licensePlate: string,
    status: VehicleStatus,
    currentRouteId: Option<string>,
    currentPosition: Option<Coord>,
    eta: Option<int>,
    stopsRemaining: Option<int>,
    routeProgress: Option<nat>,
    completedStops: Option<set<string>>)

  /** One row of the routes table shown in the chat. */
  datatype RouteRow = RouteRow(
    id: string, name: string, origin: string, destination: string,
    stops: nat, stopsList: string, assignedVehicle: string, status: string)

  /** One row of the vehicles table shown in the chat. */
  datatype VehicleRow = VehicleRow(
    alias: string, licensePlate: string, status: string, currentRoute: string,
    eta: string, stopsRemaining: string, progress: string)

  /** One row of the warehouses table shown in the chat. */
  datatype WarehouseRow = WarehouseRow(
    id: string, name: string, address: string, coordinates: Coord,
    outboundRoutes: nat, inboundRoutes: nat)

  datatype TableData =
    | RouteTable(routes: seq<RouteRow>)
    | VehicleTable(vehicles: seq<VehicleRow>)
    | WarehouseTable(warehouses: seq<WarehouseRow>)

  datatype Role = User | Assistant

  /** A transcript entry; its id and timestamp are not modelled. */
  datatype ChatMessage = ChatMessage(role: Role, content: string, structuredData: Option<TableData>)

  /** `routes.find(r => r.id === id)`: the first route with that id, if any. */
  function FindRoute(routes: seq<SavedRoute>, id: string): (r: Option<SavedRoute>)
    ensures r.None? <==> forall i :: 0 <= i < |routes| ==> routes[i].id != id
    ensures r.Some? ==> r.value.id == id && r.value in routes
  {
    if routes == [] then None
    else if routes[0].id == id then Some(routes[0])
    else FindRoute(routes[1..], id)
  }

  /** The route found is the first one with that id. */
  lemma {:induction false} FindRouteFirst(routes: seq<SavedRoute>, id: string, k: nat)
    requires k < |routes| && routes[k].id == id && forall j :: 0 <= j < k ==> routes[j].id != id
    ensures FindRoute(routes, id) == Some(routes[k])
  {
    if k > 0 {
      assert routes[0].id != id;
      FindRouteFirst(routes[1..], id, k - 1);
    }
  }

  /** `vehicles.find(v => v.id === id)`: the first vehicle with that id, if any. */
  function FindVehicle(vehicles: seq<Vehicle>, id: string): (r: Option<Vehicle>)
    ensures r.None? <==> forall i :: 0 <= i < |vehicles| ==> vehicles[i].id != id
    ensures r.Some? ==> r.value.id == id && r.value in vehicles
  {
    if vehicles == [] then None
    else if vehicles[0].id == id then Some(vehicles[0])
    else FindVehicle(vehicles[1..], id)
  }

  /** The vehicle found is the first one with that id. */
  lemma {:induction false} FindVehicleFirst(vehicles: seq<Vehicle>, id: string, k: nat)
    requires k < |vehicles| && vehicles[k].id == id && forall j :: 0 <= j < k ==> vehicles[j].id != id
    ensures FindVehicle(vehicles, id) == Some(vehicles[k])
  {
    if k > 0 {
      assert vehicles[0].id != id;
      FindVehicleFirst(vehicles[1..], id, k - 1);
    }
  }

  /** `warehouses.find(w => w.id === id)`: the first warehouse with that id, if any. */
  function FindWarehouse(warehouses: seq<Warehouse>, id: string): (r: Option<Warehouse>)
    ensures r.None? <==> forall i :: 0 <= i < |warehouses| ==> warehouses[i].id != id
    ensures r.Some? ==> r.value.id == id && r.value in warehouses
  {
    if warehouses == [] then None
    else if warehouses[0].id == id then Some(warehouses[0])
    else FindWarehouse(warehouses[1..], id)
  }

  /** The warehouse found is the first one with that id. */
  lemma {:induction false} FindWarehouseFirst(warehouses: seq<Warehouse>, id: string, k: nat)
    requires k < |warehouses| && warehouses[k].id == id && forall j :: 0 <= j < k ==> warehouses[j].id != id
    ensures FindWarehouse(warehouses, id) == Some(warehouses[k])
  {
    if k > 0 {
      assert warehouses[0].id != id;
      FindWarehouseFirst(warehouses[1..], id, k - 1);
    }
  }
}
