/**
 * The text handling of the chat assistant: extraction of the action object
 * from the model's reply with the pattern `/\{[^}]+\}/`, the visible reply,
 * alias resolution, the confirmation and trigger phrases, and the tables
 * built for "list" requests.
 */
module ChatParsing {
  import opened FleetTypes
  import opened JsText
  import ArrayOps
  import RouteCalculator

  /** The position of the opening `{` and of the closing `}` of a match. */
  datatype Span = Span(start: nat, close: nat)

  /**
   * `/\{[^}]+\}/` matches `s[i..j+1]`: a `{`, at least one character that is
   * not `}`, then a `}`.
   */
  predicate MatchAt(s: string, i: nat, j: nat)
  {
    i + 1 < j < |s| && s[i] == '{' && s[j] == '}' && forall k :: i < k < j ==> s[k] != '}'
  }

  /** The leftmost match at or after `from`; from a `{` it runs to the first `}` after it. */
  function FindActionFrom(s: string, from: nat): (r: Option<Span>)
    requires from <= |s|
    ensures r.Some? ==> from <= r.value.start && MatchAt(s, r.value.start, r.value.close)
    ensures r.Some? ==> forall i, j :: from <= i < r.value.start ==> !MatchAt(s, i, j)
    ensures r.None? ==> forall i, j :: from <= i ==> !MatchAt(s, i, j)
    decreases |s| - from
  {
    if from == |s| then None
    else if s[from] == '{' then
      var j := ArrayOps.FirstIndexFrom(s, c => c == '}', from + 1);
      if j > from + 1 then Some(Span(from, j)) else FindActionFrom(s, from + 1)
    else FindActionFrom(s, from + 1)
  }

  /** `s.match(/\{[^}]+\}/)`: the leftmost match, which is the only one starting there. */
  function FindAction(s: string): (r: Option<Span>)
    ensures r.Some? ==> MatchAt(s, r.value.start, r.value.close)
    ensures r.Some? ==> forall i, j :: MatchAt(s, i, j) ==> r.value.start < i || (i == r.value.start && j == r.value.close)
    ensures r.None? <==> forall i, j :: !MatchAt(s, i, j)
  {
    FindActionFrom(s, 0)
  }

  /**
   * The matched text: it opens with `{`, closes with `}`, has at least one
   * character between them and no other `}`. There is none exactly when no
   * such piece occurs in `s`.
   */
  function ExtractAction(s: string): (t: Option<string>)
    ensures t.Some? ==> |t.value| >= 3 && t.value[0] == '{' && t.value[|t.value| - 1] == '}'
    ensures t.Some? ==> forall k :: 0 <= k < |t.value| - 1 ==> t.value[k] != '}'
    ensures t.None? <==> forall i, j :: !MatchAt(s, i, j)
    ensures t.Some? ==> FindAction(s).Some? && t.value == s[FindAction(s).value.start..FindAction(s).value.close + 1]
  {
    match FindAction(s)
    case None => None
    case Some(sp) => Some(s[sp.start..sp.close + 1])
  }

  /** A lone `{}` is no match: the pattern needs a character between the braces. */
  lemma EmptyBracesNoMatch(p: string, q: string)
    requires '{' !in p && '}' !in p && '}' !in q
    ensures ExtractAction(p + "{}" + q) == None
  {
  }

  /**
   * An action object whose `params` is itself an object is cut at the inner
   * `}`: the match keeps two `{` and only one `}`, so it is not the object.
   */
  lemma NestedActionCut(a: string, b: string, c: string)
    requires '}' !in a && '}' !in b
    ensures ExtractAction("{" + a + "{" + b + "}" + c + "}") == Some("{" + a + "{" + b + "}")
  {
    var s := "{" + a + "{" + b + "}" + c + "}";
    var j := |a| + |b| + 2;
    assert s[j] == '}';
    forall k | 0 < k < j ensures s[k] != '}' {
      if k <= |a| {
        assert s[k] == a[k - 1];
      } else if |a| + 1 < k {
        assert s[k] == b[k - |a| - 2];
      }
    }
    assert MatchAt(s, 0, j);
    assert s[..j + 1] == "{" + a + "{" + b + "}";
  }

  /** `response.replace(/\{[^}]+\}/, '')`: the first match removed. */
  function StripAction(s: string): (r: string)
    ensures FindAction(s).None? ==> r == s
    ensures FindAction(s).Some? ==> |r| == |s| - (FindAction(s).value.close + 1 - FindAction(s).value.start)
    ensures FindAction(s).Some? ==>
      var sp := FindAction(s).value;
      r[..sp.start] == s[..sp.start] && r[sp.start..] == s[sp.close + 1..]
  {
    match FindAction(s)
    case None => s
    case Some(sp) => s[..sp.start] + s[sp.close + 1..]
  }

  /**
   * The reply shown to the user: the response without its action object,
   * trimmed, or the whole response when nothing else is left. It is empty
   * only for an empty response.
   */
  function VisibleReply(response: string): (r: string)
    ensures r == "" <==> response == ""
    ensures r != response ==> r == Trim(StripAction(response)) && r != ""
    ensures Trim(StripAction(response)) == "" ==> r == response
    ensures Trim(StripAction(response)) != "" ==> r == Trim(StripAction(response))
  {
    var t := Trim(StripAction(response));
    if t == "" then response else t
  }

  /** A reply without any `{`-`}` piece is shown trimmed, or as it is when it is all whitespace. */
  lemma ReplyWithoutActionIsTrimmed(response: string)
    requires '{' !in response
    ensures VisibleReply(response) == if Trim(response) == "" then response else Trim(response)
  {
  }

  /** The parsed JSON of an action: `action`, `params.routeId`, `params.vehicleId`. */
  datatype ActionObject = ActionObject(action: string, routeId: Option<string>, vehicleId: Option<string>)

  /** `JSON.parse`; `None` stands for the syntax error it throws. */
  type JsonParser = string -> Option<ActionObject>

  /** The action object of a reply: its match, parsed. */
  function ParseAction(response: string, parse: JsonParser): (r: Option<ActionObject>)
    ensures ExtractAction(response).None? ==> r.None?
    ensures ExtractAction(response).Some? ==> r == parse(ExtractAction(response).value)
  {
    match ExtractAction(response)
    case None => None
    case Some(t) => parse(t)
  }

  /**
   * What `JSON.parse` does with nested `params`: any text it reads an id of
   * `params` from holds the `}` that closes `params` before its last character.
   */
  ghost predicate NestsParams(parse: JsonParser)
  {
    forall t :: parse(t).Some? && (parse(t).value.routeId.Some? || parse(t).value.vehicleId.Some?) ==>
      exists k :: 0 <= k < |t| - 1 && t[k] == '}'
  }

  /** With such a parser, an extracted action never carries a route or vehicle id. */
  lemma ExtractedActionHasNoIds(response: string, parse: JsonParser)
    requires NestsParams(parse)
    ensures ParseAction(response, parse).Some? ==>
      ParseAction(response, parse).value.routeId.None? && ParseAction(response, parse).value.vehicleId.None?
  {
    if ParseAction(response, parse).Some? {
      var t := ExtractAction(response).value;
      assert parse(t) == ParseAction(response, parse);
    }
  }

  /** `id.startsWith('U-') || id.startsWith('u-')`. */
  predicate IsAliasLike(id: string)
  {
    StartsWith(id, "U-") || StartsWith(id, "u-")
  }

  /**
   * A vehicle id given as an alias (`U-…` or `u-…`) becomes the id of the
   * first vehicle whose alias matches it without regard to case; any other
   * id, or an alias no vehicle has, is kept.
   */
  function ResolveVehicleId(vehicleId: string, vehicles: seq<Vehicle>): (r: string)
    ensures !IsAliasLike(vehicleId) ==> r == vehicleId
    ensures IsAliasLike(vehicleId) && (forall j :: 0 <= j < |vehicles| ==> ToLower(vehicles[j].alias) != ToLower(vehicleId))
            ==> r == vehicleId
    ensures IsAliasLike(vehicleId) && (exists j :: 0 <= j < |vehicles| && ToLower(vehicles[j].alias) == ToLower(vehicleId))
            ==> exists k :: 0 <= k < |vehicles| && r == vehicles[k].id && ToLower(vehicles[k].alias) == ToLower(vehicleId)
                  && forall j :: 0 <= j < k ==> ToLower(vehicles[j].alias) != ToLower(vehicleId)
  {
    if IsAliasLike(vehicleId) then
      var k := ArrayOps.FirstIndex(vehicles, (v: Vehicle) => ToLower(v.alias) == ToLower(vehicleId));
      if k >= 0 then vehicles[k].id else vehicleId
    else vehicleId
  }

  /** The replies that confirm a pending dispatch, compared after lowercasing. */
  predicate IsConfirmation(lowerMessage: string)
  {
    lowerMessage in {"yes", "confirm", "dispatch", "send it", "si", "ok"}
  }

  /** The phrases after which a vehicle suggestion in the reply becomes a pending dispatch. */
  predicate MentionsDispatch(lowerMessage: string)
  {
    || Contains(lowerMessage, "best vehicle") || Contains(lowerMessage, "which vehicle")
    || Contains(lowerMessage, "what vehicle") || Contains(lowerMessage, "send") || Contains(lowerMessage, "want to")
  }

  /** The phrases that ask for a table. */
  predicate AsksForList(lowerMessage: string)
  {
    || Contains(lowerMessage, "list") || Contains(lowerMessage, "show all") || Contains(lowerMessage, "all routes")
    || Contains(lowerMessage, "all vehicles") || Contains(lowerMessage, "all warehouses")
  }

  /** `x?.name || fallback`. */
  function NameOr(w: Option<Warehouse>, fallback: string): (r: string)
    ensures r == fallback <==> w.None? || w.value.name == "" || w.value.name == fallback
    ensures w.Some? && w.value.name != "" ==> r == w.value.name
    ensures w.None? || w.value.name == "" ==> r == fallback
  {
    if w.Some? && w.value.name != "" then w.value.name else fallback
  }

  /** `vehicles.find(v => v.currentRouteId === routeId)`: the first vehicle on the route, if any. */
  function AssignedVehicle(vehicles: seq<Vehicle>, routeId: string): (r: Option<Vehicle>)
    ensures r.None? <==> forall i :: 0 <= i < |vehicles| ==> vehicles[i].currentRouteId != Some(routeId)
    ensures r.Some? ==> r.value in vehicles && r.value.currentRouteId == Some(routeId)
    ensures forall k :: 0 <= k < |vehicles| && vehicles[k].currentRouteId == Some(routeId)
                        && (forall j :: 0 <= j < k ==> vehicles[j].currentRouteId != Some(routeId))
                        ==> r == Some(vehicles[k])
  {
    var k := ArrayOps.FirstIndex(vehicles, (v: Vehicle) => v.currentRouteId == Some(routeId));
    if k < 0 then None else Some(vehicles[k])
  }

  function BusinessNames(stops: seq<RouteStop>): (r: seq<string>)
    ensures |r| == |stops| && forall i :: 0 <= i < |stops| ==> r[i] == stops[i].businessName
  {
    seq(|stops|, i requires 0 <= i < |stops| => stops[i].businessName)
  }

  /**
   * One row of the routes table: the id in capitals, the warehouse names
   * (`Unknown` when not found), the stops, the first vehicle on the route
   * (`None` when there is none) and `Active` exactly when some vehicle has
   * the route as its current one.
   */
  function RouteRowOf(r: SavedRoute, warehouses: seq<Warehouse>, vehicles: seq<Vehicle>): (row: RouteRow)
    ensures row.id == ToUpper(r.id) && row.name == r.name && row.stops == |r.stops|
    ensures row.origin == NameOr(FindWarehouse(warehouses, r.originWarehouseId), "Unknown")
    ensures row.destination == NameOr(FindWarehouse(warehouses, r.destinationWarehouseId), "Unknown")
    ensures row.stopsList == Join(BusinessNames(r.stops), ", ")
    ensures row.status == "Active" <==> exists i :: 0 <= i < |vehicles| && vehicles[i].currentRouteId == Some(r.id)
    ensures row.status == "Available" <==> forall i :: 0 <= i < |vehicles| ==> vehicles[i].currentRouteId != Some(r.id)
    ensures row.assignedVehicle != "None" ==>
      exists i :: 0 <= i < |vehicles| && vehicles[i].currentRouteId == Some(r.id) && vehicles[i].alias == row.assignedVehicle
    ensures forall k :: 0 <= k < |vehicles| && vehicles[k].currentRouteId == Some(r.id)
                        && (forall j :: 0 <= j < k ==> vehicles[j].currentRouteId != Some(r.id))
                        ==> row.assignedVehicle == if vehicles[k].alias != "" then vehicles[k].alias else "None"
    ensures (forall i :: 0 <= i < |vehicles| ==> vehicles[i].currentRouteId != Some(r.id)) ==> row.assignedVehicle == "None"
  {
    var first := AssignedVehicle(vehicles, r.id);
    RouteRow(
      ToUpper(r.id), r.name,
      NameOr(FindWarehouse(warehouses, r.originWarehouseId), "Unknown"),
      NameOr(FindWarehouse(warehouses, r.destinationWarehouseId), "Unknown"),
      |r.stops|, Join(BusinessNames(r.stops), ", "),
      if first.Some? && first.value.alias != "" then first.value.alias else "None",
      if first.Some? then "Active" else "Available")
  }

  /**
   * `${Math.round(p * 100)}%` for a progress of `p` thousandths: the digits
   * of the nearest whole percentage, halves rounded up, then `%`.
   */
  function PercentText(p: nat): (s: string)
    ensures |s| >= 2 && s[|s| - 1] == '%'
    ensures forall i :: 0 <= i < |s| - 1 ==> '0' <= s[i] <= '9'
    ensures 10 * DigitsValue(s[..|s| - 1]) <= p + 5 < 10 * DigitsValue(s[..|s| - 1]) + 10
    ensures s[0] == '0' ==> s == "0%"
  {
    var digits := NatToString((p + 5) / 10);
    assert (digits + "%")[..|digits|] == digits;
    digits + "%"
  }

  /** A number cell: `n ? `${n}` + suffix : '—'` (zero and absence both show the dash). */
  function CountCell(n: Option<int>, suffix: string): (s: string)
    ensures s == "\U{2014}" <==> n.None? || n.value == 0
    ensures s != "\U{2014}" ==> s == IntToString(n.value) + suffix
  {
    if n.Some? && n.value != 0 then
      var digits := IntToString(n.value);
      assert (digits + suffix)[0] == digits[0];
      digits + suffix
    else "\U{2014}"
  }

  /**
   * One row of the vehicles table: the current route's name when the vehicle
   * has a known route with a name, and a dash for every absent or zero figure.
   */
  function VehicleRowOf(v: Vehicle, routes: seq<SavedRoute>): (row: VehicleRow)
    ensures row.alias == v.alias && row.licensePlate == v.licensePlate && row.status == StatusName(v.status)
    ensures row.currentRoute != "\U{2014}" ==>
      Truthy(v.currentRouteId) && FindRoute(routes, v.currentRouteId.value).Some?
      && row.currentRoute == FindRoute(routes, v.currentRouteId.value).value.name
    ensures row.eta == "\U{2014}" <==> v.eta.None? || v.eta.value == 0
    ensures row.stopsRemaining == "\U{2014}" <==> v.stopsRemaining.None? || v.stopsRemaining.value == 0
    ensures row.progress == "\U{2014}" <==> v.routeProgress.None? || v.routeProgress.value == 0
    ensures Truthy(v.currentRouteId) && FindRoute(routes, v.currentRouteId.value).Some?
            && FindRoute(routes, v.currentRouteId.value).value.name != "" ==>
      row.currentRoute == FindRoute(routes, v.currentRouteId.value).value.name
    ensures !(Truthy(v.currentRouteId) && FindRoute(routes, v.currentRouteId.value).Some?
              && FindRoute(routes, v.currentRouteId.value).value.name != "") ==>
      row.currentRoute == "\U{2014}"
    ensures row.eta == CountCell(v.eta, " min") && row.stopsRemaining == CountCell(v.stopsRemaining, "")
    ensures v.routeProgress.Some? && v.routeProgress.value != 0 ==> row.progress == PercentText(v.routeProgress.value)
  {
    var route := if Truthy(v.currentRouteId) then FindRoute(routes, v.currentRouteId.value) else None;
    VehicleRow(
      v.alias, v.licensePlate, StatusName(v.status),
      if route.Some? && route.value.name != "" then route.value.name else "\U{2014}",
      CountCell(v.eta, " min"),
      CountCell(v.stopsRemaining, ""),
      if v.routeProgress.Some? && v.routeProgress.value != 0 then PercentText(v.routeProgress.value) else "\U{2014}")
  }

  /** The test `r.originWarehouseId === id`. */
  function LeavesFrom(id: string): SavedRoute -> bool
  {
    (r: SavedRoute) => r.originWarehouseId == id
  }

  /** The test `r.destinationWarehouseId === id`. */
  function GoesTo(id: string): SavedRoute -> bool
  {
    (r: SavedRoute) => r.destinationWarehouseId == id
  }

  /**
   * One row of the warehouses table: the numbers of routes leaving and
   * reaching it, that is the lengths of the two filters of `routes`.
   */
  function WarehouseRowOf(w: Warehouse, routes: seq<SavedRoute>): (row: WarehouseRow)
    ensures row.id == ToUpper(w.id) && row.name == w.name && row.address == w.address && row.coordinates == w.coordinates
    ensures row.outboundRoutes <= |routes| && row.inboundRoutes <= |routes|
    ensures row.outboundRoutes == 0 <==> forall i :: 0 <= i < |routes| ==> routes[i].originWarehouseId != w.id
    ensures row.inboundRoutes == 0 <==> forall i :: 0 <= i < |routes| ==> routes[i].destinationWarehouseId != w.id
    ensures row.outboundRoutes == |ArrayOps.Filter(routes, LeavesFrom(w.id))|
    ensures row.inboundRoutes == |ArrayOps.Filter(routes, GoesTo(w.id))|
  {
    var out := ArrayOps.Filter(routes, LeavesFrom(w.id));
    var inb := ArrayOps.Filter(routes, GoesTo(w.id));
    ArrayOps.FilterHead(routes, LeavesFrom(w.id));
    ArrayOps.FilterHead(routes, GoesTo(w.id));
    WarehouseRow(ToUpper(w.id), w.name, w.address, w.coordinates, |out|, |inb|)
  }

  /** The content and optional table of an assistant message. */
  datatype Parsed = Parsed(content: string, structuredData: Option<TableData>)

  const RoutesIntro := "Here are all the routes in the system:"
  const VehiclesIntro := "Here are all the vehicles in the fleet:"
  const WarehousesIntro := "Here are all the warehouses:"

  /**
   * `parseStructuredResponse`: a request for a list that names routes,
   * vehicles or warehouses (checked in that order) gets the matching table,
   * one row per entry in order; anything else gets the visible reply.
   */
  function ParseStructuredResponse(userMessage: string, response: string, vehicles: seq<Vehicle>,
                                   routes: seq<SavedRoute>, warehouses: seq<Warehouse>): (p: Parsed)
    ensures var lower := ToLower(userMessage);
      p.structuredData.Some? <==>
        AsksForList(lower) && (Contains(lower, "route") || Contains(lower, "vehicle") || Contains(lower, "warehouse"))
    ensures p.structuredData.None? ==> p.content == VisibleReply(response)
    ensures p.structuredData.Some? && p.structuredData.value.RouteTable? ==>
      && Contains(ToLower(userMessage), "route") && p.content == RoutesIntro
      && |p.structuredData.value.routes| == |routes|
      && forall i :: 0 <= i < |routes| ==> p.structuredData.value.routes[i] == RouteRowOf(routes[i], warehouses, vehicles)
    ensures p.structuredData.Some? && p.structuredData.value.VehicleTable? ==>
      && !Contains(ToLower(userMessage), "route") && Contains(ToLower(userMessage), "vehicle")
      && p.content == VehiclesIntro
      && |p.structuredData.value.vehicles| == |vehicles|
      && forall i :: 0 <= i < |vehicles| ==> p.structuredData.value.vehicles[i] == VehicleRowOf(vehicles[i], routes)
    ensures p.structuredData.Some? && p.structuredData.value.WarehouseTable? ==>
      && !Contains(ToLower(userMessage), "route") && !Contains(ToLower(userMessage), "vehicle")
      && p.content == WarehousesIntro
      && |p.structuredData.value.warehouses| == |warehouses|
      && forall i :: 0 <= i < |warehouses| ==> p.structuredData.value.warehouses[i] == WarehouseRowOf(warehouses[i], routes)
  {
    var lower := ToLower(userMessage);
    if AsksForList(lower) && Contains(lower, "route") then
      Parsed(RoutesIntro, Some(RouteTable(seq(|routes|, i requires 0 <= i < |routes| => RouteRowOf(routes[i], warehouses, vehicles)))))
    else if AsksForList(lower) && Contains(lower, "vehicle") then
      Parsed(VehiclesIntro, Some(VehicleTable(seq(|vehicles|, i requires 0 <= i < |vehicles| => VehicleRowOf(vehicles[i], routes)))))
    else if AsksForList(lower) && Contains(lower, "warehouse") then
      Parsed(WarehousesIntro, Some(WarehouseTable(seq(|warehouses|, i requires 0 <= i < |warehouses| => WarehouseRowOf(warehouses[i], routes)))))
    else Parsed(VisibleReply(response), None)
  }
}
