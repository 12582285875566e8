/**
 * The chat assistant's side effects: the action a reply carries (show,
 * focus or dispatch a route, or recommend a vehicle for it), and the
 * exchange around a message — the user's line, the confirmation of a
 * pending dispatch, the assistant's reply and its table.
 *
 * The reply itself comes from a language model and `JSON.parse` reads its
 * action: both are parameters here (`reply`, `parse`).
 */
module ChatAssistant {
  import opened FleetTypes
  import opened JsText
  import opened ChatParsing
  import FleetContext
  import RouteCalculator

  /** A vehicle and a route to send it on, as ids. */
  datatype DispatchPair = DispatchPair(vehicleId: string, routeId: string)

  /**
   * What a dispatch request resolves to: the route id lowercased, the
   * vehicle id resolved from an alias; present only when both a route and a
   * vehicle carry those ids.
   */
  function DispatchTarget(vehicleId: string, routeId: string, vehicles: seq<Vehicle>, routes: seq<SavedRoute>)
    : (t: Option<DispatchPair>)
    ensures t.Some? <==>
      (exists j :: 0 <= j < |routes| && routes[j].id == ToLower(routeId))
      && (exists i :: 0 <= i < |vehicles| && vehicles[i].id == ResolveVehicleId(vehicleId, vehicles))
    ensures t.Some? ==> t.value == DispatchPair(ResolveVehicleId(vehicleId, vehicles), ToLower(routeId))
  {
    var rid := ToLower(routeId);
    var vid := ResolveVehicleId(vehicleId, vehicles);
    if FindRoute(routes, rid).Some? && FindVehicle(vehicles, vid).Some? then Some(DispatchPair(vid, rid)) else None
  }

  /** The recommendation added to the chat for a `suggest_vehicle` action. */
  function Recommendation(v: Vehicle, route: SavedRoute): string
  {
    "I recommend dispatching " + v.alias + " (" + v.licensePlate + ") for " + route.name
      + ". Would you like me to dispatch it?"
  }

  /**
   * The effects of one action: whether it counts as handled, the dispatch,
   * the route made visible, the route focused and the message added.
   */
  datatype Plan = Plan(
    handled: bool,
    dispatch: Option<DispatchPair>,
    shown: Option<string>,
    focus: Option<string>,
    message: Option<string>)

  const Ignore := Plan(false, None, None, None, None)

  /** The id, when it is not already visible. */
  function RevealIfHidden(id: string, visible: set<string>): (r: Option<string>)
    ensures r.Some? <==> id !in visible
    ensures r.Some? ==> r.value == id
  {
    if id in visible then None else Some(id)
  }

  /**
   * `handleAction` on the parsed action `obj`, given the vehicles, the
   * routes and the visible routes it reads: an action is handled only with
   * a route id; a shown route is always handled, even when unknown; a
   * focused route, a dispatch and a recommendation only when what they name
   * exists. Whatever is focused or dispatched to ends up visible, and an
   * action that is not handled has no effect.
   */
  function PlanAction(obj: Option<ActionObject>, vehicles: seq<Vehicle>, routes: seq<SavedRoute>, visible: set<string>)
    : (p: Plan)
    ensures !p.handled ==> p == Ignore
    ensures p.handled ==>
      (obj.Some? && Truthy(obj.value.routeId) && obj.value.action in {"show_route", "focus_route", "dispatch", "suggest_vehicle"})
    ensures obj.Some? && obj.value.action == "show_route" && Truthy(obj.value.routeId) ==>
      p.handled && p.dispatch.None? && p.focus.None? && p.message.None?
    ensures p.shown.Some? ==>
      p.shown.value !in visible && exists j :: 0 <= j < |routes| && routes[j].id == p.shown.value
    ensures p.shown.Some? && obj.value.action != "dispatch" ==> p.shown.value == ToLower(obj.value.routeId.value)
    ensures obj.Some? && obj.value.action == "focus_route" && Truthy(obj.value.routeId) ==>
      (p.handled <==> exists j :: 0 <= j < |routes| && routes[j].id == ToLower(obj.value.routeId.value))
    ensures p.focus.Some? ==>
      obj.value.action == "focus_route" && p.focus.value == ToLower(obj.value.routeId.value)
      && (p.focus.value in visible || p.shown == p.focus)
    ensures obj.Some? && obj.value.action == "dispatch" && Truthy(obj.value.vehicleId) && Truthy(obj.value.routeId) ==>
      p.dispatch == DispatchTarget(obj.value.vehicleId.value, obj.value.routeId.value, vehicles, routes)
      && (p.handled <==> p.dispatch.Some?)
    ensures p.dispatch.Some? ==>
      obj.value.action == "dispatch" && Truthy(obj.value.vehicleId)
      && (p.dispatch.value.routeId in visible || p.shown == Some(p.dispatch.value.routeId))
    ensures obj.Some? && obj.value.action == "suggest_vehicle" && Truthy(obj.value.routeId) ==>
      (p.handled <==> FindRoute(routes, ToLower(obj.value.routeId.value)).Some?
                      && exists i :: 0 <= i < |vehicles| && RouteCalculator.IsFree(vehicles[i]))
    ensures p.message.Some? ==>
      obj.value.action == "suggest_vehicle" && FindRoute(routes, ToLower(obj.value.routeId.value)).Some?
      && exists k :: (0 <= k < |vehicles| && RouteCalculator.IsFree(vehicles[k])
                      && (forall j :: 0 <= j < k ==> !RouteCalculator.IsFree(vehicles[j]))
                      && p.message.value == Recommendation(vehicles[k], FindRoute(routes, ToLower(obj.value.routeId.value)).value))
    ensures obj.Some? && (obj.value.action == "show_route" || obj.value.action == "focus_route") && Truthy(obj.value.routeId)
            && FindRoute(routes, ToLower(obj.value.routeId.value)).Some? ==>
      p.shown == RevealIfHidden(ToLower(obj.value.routeId.value), visible)
    ensures obj.Some? && obj.value.action == "focus_route" && p.handled ==> p.focus == Some(ToLower(obj.value.routeId.value))
    ensures obj.Some? && obj.value.action == "suggest_vehicle" && p.handled ==> p.message.Some?
    ensures p.dispatch.Some? ==> p.shown == RevealIfHidden(p.dispatch.value.routeId, visible)
    ensures p.shown.Some? ==>
      obj.value.action == "show_route" || obj.value.action == "focus_route" || obj.value.action == "dispatch"
    ensures obj.Some? && obj.value.action == "suggest_vehicle" ==> p.shown.None? && p.focus.None? && p.dispatch.None?
    ensures obj.Some? && obj.value.action == "dispatch" && !Truthy(obj.value.vehicleId) ==> p == Ignore
  {
    if obj.None? then Ignore
    else
      var a := obj.value;
      if a.action == "show_route" && Truthy(a.routeId) then
        var route := FindRoute(routes, ToLower(a.routeId.value));
        Plan(true, None, if route.Some? then RevealIfHidden(route.value.id, visible) else None, None, None)
      else if a.action == "focus_route" && Truthy(a.routeId) then
        var route := FindRoute(routes, ToLower(a.routeId.value));
        if route.Some? then Plan(true, None, RevealIfHidden(route.value.id, visible), Some(route.value.id), None)
        else Ignore
      else if a.action == "dispatch" && Truthy(a.vehicleId) && Truthy(a.routeId) then
        var t := DispatchTarget(a.vehicleId.value, a.routeId.value, vehicles, routes);
        if t.Some? then Plan(true, t, RevealIfHidden(t.value.routeId, visible), None, None) else Ignore
      else if a.action == "suggest_vehicle" && Truthy(a.routeId) then
        var route := FindRoute(routes, ToLower(a.routeId.value));
        if route.Some? then
          var v := RouteCalculator.SuggestBestVehicle(route.value, vehicles);
          if v.Some? then Plan(true, None, None, None, Some(Recommendation(v.value, route.value))) else Ignore
        else Ignore
      else Ignore
  }

  /** The plan of the action a reply carries. */
  function Planned(reply: string, parse: JsonParser, vehicles: seq<Vehicle>, routes: seq<SavedRoute>, visible: set<string>): Plan
  {
    PlanAction(ParseAction(reply, parse), vehicles, routes, visible)
  }

  /**
   * With `JSON.parse` reading ids only from a nested `params` object, the
   * regular expression never captures a whole action, so no action is ever
   * handled.
   */
  lemma NestedParamsNeverAct(reply: string, parse: JsonParser, vehicles: seq<Vehicle>,
                             routes: seq<SavedRoute>, visible: set<string>)
    requires NestsParams(parse)
    ensures Planned(reply, parse, vehicles, routes, visible) == Ignore
  {
    ExtractedActionHasNoIds(reply, parse);
  }

  /**
   * The dispatch a reply leaves pending: after a message that mentions
   * choosing or sending a vehicle, a `suggest_vehicle` action with both ids,
   * kept as written.
   */
  function Suggested(lowerMessage: string, obj: Option<ActionObject>): (r: Option<DispatchPair>)
    ensures r.Some? <==>
      MentionsDispatch(lowerMessage) && obj.Some? && obj.value.action == "suggest_vehicle"
      && Truthy(obj.value.vehicleId) && Truthy(obj.value.routeId)
    ensures r.Some? ==> r.value.vehicleId != "" && r.value.routeId != ""
    ensures r.Some? ==> r.value == DispatchPair(obj.value.vehicleId.value, obj.value.routeId.value)
  {
    if MentionsDispatch(lowerMessage) && obj.Some? && obj.value.action == "suggest_vehicle"
       && Truthy(obj.value.vehicleId) && Truthy(obj.value.routeId)
    then Some(DispatchPair(obj.value.vehicleId.value, obj.value.routeId.value))
    else None
  }

  /** With the same parser, no reply ever leaves a dispatch pending. */
  lemma NestedParamsNeverPend(lowerMessage: string, reply: string, parse: JsonParser)
    requires NestsParams(parse)
    ensures Suggested(lowerMessage, ParseAction(reply, parse)).None?
  {
    ExtractedActionHasNoIds(reply, parse);
  }

  /** The pending dispatch after a reply: the suggested one, if any, else the one before. */
  function NextPending(lowerMessage: string, obj: Option<ActionObject>, pending: Option<DispatchPair>): Option<DispatchPair>
  {
    if Suggested(lowerMessage, obj).Some? then Suggested(lowerMessage, obj) else pending
  }

  const DispatchFailed := "Sorry, I couldn't complete the dispatch. " + "Please try again."
  const DispatchDonePrefix := "\U{2713} Vehicle dispatched successfully! "

  /**
   * The answer to a confirmation: success, naming the vehicle as it was
   * suggested (upper-cased) and the route, exactly when the pending
   * dispatch resolves to a route and a vehicle; the apology otherwise.
   */
  function ConfirmationText(pending: DispatchPair, vehicles: seq<Vehicle>, routes: seq<SavedRoute>): (s: string)
    ensures s == DispatchFailed <==> DispatchTarget(pending.vehicleId, pending.routeId, vehicles, routes).None?
    ensures s != DispatchFailed ==>
      StartsWith(s, DispatchDonePrefix + ToUpper(pending.vehicleId) + " is now en route to ")
      && EndsWith(s, FindRoute(routes, ToLower(pending.routeId)).value.name + ".")
    ensures s != DispatchFailed ==>
      s == DispatchDonePrefix + ToUpper(pending.vehicleId) + " is now en route to "
           + FindRoute(routes, ToLower(pending.routeId)).value.name + "."
  {
    var t := DispatchTarget(pending.vehicleId, pending.routeId, vehicles, routes);
    if t.Some? then
      var prefix := DispatchDonePrefix + ToUpper(pending.vehicleId) + " is now en route to ";
      var route := FindRoute(routes, ToLower(pending.routeId));
      assert route.Some?;
      var name := route.value.name;
      var s := prefix + name + ".";
      assert s[0] == '\U{2713}' && DispatchFailed[0] == 'S';
      assert s[..|prefix|] == prefix;
      assert s[|s| - |name + "."|..] == name + ".";
      s
    else DispatchFailed
  }

  /** The effects of a confirmation: the resolved dispatch, if any, and the answer. */
  function ConfirmationPlan(pending: DispatchPair, vehicles: seq<Vehicle>, routes: seq<SavedRoute>): Plan
  {
    var t := DispatchTarget(pending.vehicleId, pending.routeId, vehicles, routes);
    Plan(t.Some?, t, None, None, Some(ConfirmationText(pending, vehicles, routes)))
  }

  /** The assistant's answer to a message that is not a confirmation. */
  function Answer(userMessage: string, reply: string, vehicles: seq<Vehicle>, routes: seq<SavedRoute>,
                  warehouses: seq<Warehouse>): ChatMessage
  {
    var parsed := ParseStructuredResponse(userMessage, reply, vehicles, routes, warehouses);
    ChatMessage(Assistant, parsed.content, parsed.structuredData)
  }

  /** A vehicle after `dispatchVehicle` for the given pair, when there is one. */
  function DispatchEffect(d: Option<DispatchPair>, v: Vehicle, routes: seq<SavedRoute>): Vehicle
  {
    if d.Some? && v.id == d.value.vehicleId
    then FleetContext.Dispatched(v, d.value.routeId, FleetContext.StopCount(routes, d.value.routeId))
    else v
  }

  function Revealed(id: Option<string>): set<string>
  {
    if id.Some? then {id.value} else {}
  }

  function Said(message: Option<string>): seq<ChatMessage>
  {
    if message.Some? then [ChatMessage(Assistant, message.value, None)] else []
  }

  /** The chat panel: the shared fleet store and the dispatch awaiting confirmation. */
  class ChatSession {
    const fleet: FleetContext.FleetStore
    var pendingDispatch: Option<DispatchPair>

    constructor (fleet0: FleetContext.FleetStore)
      ensures fleet == fleet0 && pendingDispatch.None?
    {
      fleet := fleet0;
      pendingDispatch := None;
    }

    /**
     * The store after the effects of `p`: the dispatch applied to the
     * vehicle it names, the revealed route added to the visible ones, the
     * focus moved, the message appended between the messages `before` and
     * `after`; nothing else changed.
     */
    twostate predicate Performed(p: Plan, before: seq<ChatMessage>, after: seq<ChatMessage>)
      reads this, fleet
    {
      && |fleet.vehicles| == |old(fleet.vehicles)|
      && (forall i :: 0 <= i < |fleet.vehicles| ==>
            fleet.vehicles[i] == DispatchEffect(p.dispatch, old(fleet.vehicles[i]), fleet.savedRoutes))
      && fleet.visibleRouteIds == old(fleet.visibleRouteIds) + Revealed(p.shown)
      && fleet.focusedRouteId == (if p.focus.Some? then p.focus else old(fleet.focusedRouteId))
      && fleet.chatMessages == old(fleet.chatMessages) + before + Said(p.message) + after
    }

    /**
     * `handleAction`: performs the action of the reply, if any, and says
     * whether it was handled. The visible routes it reads are the store's.
     */
    method HandleAction(reply: string, parse: JsonParser) returns (handled: bool)
      requires fleet.Valid()
      modifies fleet`vehicles, fleet`visibleRouteIds, fleet`focusedRouteId, fleet`chatMessages
      ensures fleet.Valid()
      ensures handled == Planned(reply, parse, old(fleet.vehicles), fleet.savedRoutes, old(fleet.visibleRouteIds)).handled
      ensures Performed(Planned(reply, parse, old(fleet.vehicles), fleet.savedRoutes, old(fleet.visibleRouteIds)), [], [])
    {
      var obj := ParseAction(reply, parse);
      if obj.None? {
        return false;
      }
      var a := obj.value;
      if a.action == "show_route" && Truthy(a.routeId) {
        handled := ShowRoute(a);
      } else if a.action == "focus_route" && Truthy(a.routeId) {
        handled := FocusRoute(a);
      } else if a.action == "dispatch" && Truthy(a.vehicleId) && Truthy(a.routeId) {
        handled := Dispatch(a);
      } else if a.action == "suggest_vehicle" && Truthy(a.routeId) {
        handled := SuggestVehicle(a);
      } else {
        handled := false;
      }
    }

    /** `show_route`: show the route if it is known and hidden; handled either way. */
    method ShowRoute(a: ActionObject) returns (handled: bool)
      requires a.action == "show_route" && Truthy(a.routeId)
      modifies fleet`visibleRouteIds, fleet`focusedRouteId
      ensures handled == PlanAction(Some(a), fleet.vehicles, fleet.savedRoutes, old(fleet.visibleRouteIds)).handled
      ensures Performed(PlanAction(Some(a), fleet.vehicles, fleet.savedRoutes, old(fleet.visibleRouteIds)), [], [])
    {
      var route := FindRoute(fleet.savedRoutes, ToLower(a.routeId.value));
      if route.Some? && route.value.id !in fleet.visibleRouteIds {
        fleet.ToggleRouteVisibility(route.value.id);
      }
      handled := true;
    }

    /** `focus_route`: a known route is revealed if hidden and focused. */
    method FocusRoute(a: ActionObject) returns (handled: bool)
      requires a.action == "focus_route" && Truthy(a.routeId)
      modifies fleet`visibleRouteIds, fleet`focusedRouteId
      ensures handled == PlanAction(Some(a), fleet.vehicles, fleet.savedRoutes, old(fleet.visibleRouteIds)).handled
      ensures Performed(PlanAction(Some(a), fleet.vehicles, fleet.savedRoutes, old(fleet.visibleRouteIds)), [], [])
    {
      var route := FindRoute(fleet.savedRoutes, ToLower(a.routeId.value));
      handled := false;
      if route.Some? {
        if route.value.id !in fleet.visibleRouteIds {
          fleet.ToggleRouteVisibility(route.value.id);
        }
        fleet.SetFocusedRoute(Some(route.value.id));
        handled := true;
      }
    }

    /** `dispatch`: when the route and the (alias-resolved) vehicle exist, dispatch and show the route. */
    method Dispatch(a: ActionObject) returns (handled: bool)
      requires fleet.Valid()
      requires a.action == "dispatch" && Truthy(a.vehicleId) && Truthy(a.routeId)
      modifies fleet`vehicles, fleet`visibleRouteIds, fleet`focusedRouteId
      ensures fleet.Valid()
      ensures handled == PlanAction(Some(a), old(fleet.vehicles), fleet.savedRoutes, old(fleet.visibleRouteIds)).handled
      ensures Performed(PlanAction(Some(a), old(fleet.vehicles), fleet.savedRoutes, old(fleet.visibleRouteIds)), [], [])
    {
      var routeId := ToLower(a.routeId.value);
      var vehicleId := ResolveVehicleId(a.vehicleId.value, fleet.vehicles);
      var route := FindRoute(fleet.savedRoutes, routeId);
      var vehicle := FindVehicle(fleet.vehicles, vehicleId);
      handled := false;
      if route.Some? && vehicle.Some? {
        fleet.DispatchVehicle(vehicleId, routeId);
        if routeId !in fleet.visibleRouteIds {
          fleet.ToggleRouteVisibility(routeId);
        }
        handled := true;
      }
    }

    /** `suggest_vehicle`: for a known route with a free vehicle, recommend the first free one. */
    method SuggestVehicle(a: ActionObject) returns (handled: bool)
      requires a.action == "suggest_vehicle" && Truthy(a.routeId)
      modifies fleet`chatMessages
      ensures handled == PlanAction(Some(a), fleet.vehicles, fleet.savedRoutes, fleet.visibleRouteIds).handled
      ensures Performed(PlanAction(Some(a), fleet.vehicles, fleet.savedRoutes, fleet.visibleRouteIds), [], [])
    {
      var route := FindRoute(fleet.savedRoutes, ToLower(a.routeId.value));
      handled := false;
      if route.Some? {
        var suggested := RouteCalculator.SuggestBestVehicle(route.value, fleet.vehicles);
        if suggested.Some? {
          fleet.AddChatMessage(ChatMessage(Assistant, Recommendation(suggested.value, route.value), None));
          handled := true;
        }
      }
    }

    /**
     * The confirmation branch of `handleSend`, after the user's line: dispatch
     * if both ends resolve, answer, and drop the pending dispatch.
     */
    method Confirm(said: ChatMessage, pending: DispatchPair)
      requires fleet.Valid()
      modifies this`pendingDispatch, fleet`vehicles, fleet`chatMessages
      ensures fleet.Valid() && pendingDispatch.None?
      ensures Performed(ConfirmationPlan(pending, old(fleet.vehicles), fleet.savedRoutes), [said], [])
    {
      fleet.AddChatMessage(said);
      var routeId := ToLower(pending.routeId);
      var vehicleId := ResolveVehicleId(pending.vehicleId, fleet.vehicles);
      var route := FindRoute(fleet.savedRoutes, routeId);
      var vehicle := FindVehicle(fleet.vehicles, vehicleId);
      ghost var plan := ConfirmationPlan(pending, fleet.vehicles, fleet.savedRoutes);
      if route.Some? && vehicle.Some? {
        var text := DispatchDonePrefix + ToUpper(pending.vehicleId) + " is now en route to " + route.value.name + ".";
        assert plan == Plan(true, Some(DispatchPair(vehicleId, routeId)), None, None, Some(text));
        fleet.DispatchVehicle(vehicleId, routeId);
        fleet.AddChatMessage(ChatMessage(Assistant, text, None));
      } else {
        assert plan == Plan(false, None, None, None, Some(DispatchFailed));
        fleet.AddChatMessage(ChatMessage(Assistant, DispatchFailed, None));
      }
      pendingDispatch := None;
    }

    /** After a message that mentions choosing or sending a vehicle, a suggestion with both ids becomes the pending dispatch. */
    method NotePending(lowerMessage: string, reply: string, parse: JsonParser)
      modifies this`pendingDispatch
      ensures pendingDispatch == NextPending(lowerMessage, ParseAction(reply, parse), old(pendingDispatch))
    {
      if MentionsDispatch(lowerMessage) {
        var suggestion := ParseAction(reply, parse);
        if suggestion.Some? && suggestion.value.action == "suggest_vehicle"
           && Truthy(suggestion.value.vehicleId) && Truthy(suggestion.value.routeId) {
          pendingDispatch := Some(DispatchPair(suggestion.value.vehicleId.value, suggestion.value.routeId.value));
        }
      }
    }

    /**
     * The other branch of `handleSend`, after the user's line: perform the
     * reply's action, answer with the reply's text or table (read against
     * the vehicles as they were before the action), and keep a suggested
     * vehicle as the pending dispatch.
     */
    method Respond(said: ChatMessage, userMessage: string, reply: string, parse: JsonParser)
      requires fleet.Valid()
      modifies this`pendingDispatch, fleet`vehicles, fleet`visibleRouteIds, fleet`focusedRouteId, fleet`chatMessages
      ensures fleet.Valid()
      ensures pendingDispatch == NextPending(ToLower(userMessage), ParseAction(reply, parse), old(pendingDispatch))
      ensures Performed(Planned(reply, parse, old(fleet.vehicles), fleet.savedRoutes, old(fleet.visibleRouteIds)), [said],
                        [Answer(userMessage, reply, old(fleet.vehicles), fleet.savedRoutes, fleet.warehouses)])
    {
      ghost var chat0 := fleet.chatMessages;
      fleet.AddChatMessage(said);
      // The render-time values the reply is read against.
      var vehicles := fleet.vehicles;
      var routes := fleet.savedRoutes;
      ghost var p := Planned(reply, parse, vehicles, routes, fleet.visibleRouteIds);
      var actionExecuted := HandleAction(reply, parse);
      assert fleet.chatMessages == chat0 + [said] + Said(p.message);
      var answer := Answer(userMessage, reply, vehicles, routes, fleet.warehouses);
      NotePending(ToLower(userMessage), reply, parse);
      fleet.AddChatMessage(answer);
      assert fleet.chatMessages == chat0 + [said] + Said(p.message) + [answer];
    }

    /**
     * `handleSend` with the model's `reply` to the message: a blank input
     * changes nothing; otherwise the trimmed input joins the chat, and then
     * a confirmation word settles a pending dispatch (and clears it), and any
     * other message gets the reply's action performed and its answer, and
     * may leave a dispatch pending.
     */
    method HandleSend(input: string, reply: string, parse: JsonParser)
      requires fleet.Valid()
      modifies this`pendingDispatch, fleet`vehicles, fleet`visibleRouteIds, fleet`focusedRouteId, fleet`chatMessages
      ensures fleet.Valid()
      ensures Trim(input) == "" ==> unchanged(this, fleet)
      ensures Trim(input) != "" && old(pendingDispatch).Some? && IsConfirmation(ToLower(Trim(input))) ==>
        && pendingDispatch.None?
        && Performed(ConfirmationPlan(old(pendingDispatch).value, old(fleet.vehicles), fleet.savedRoutes),
                     [ChatMessage(User, Trim(input), None)], [])
      ensures Trim(input) != "" && !(old(pendingDispatch).Some? && IsConfirmation(ToLower(Trim(input)))) ==>
        && pendingDispatch == NextPending(ToLower(Trim(input)), ParseAction(reply, parse), old(pendingDispatch))
        && Performed(Planned(reply, parse, old(fleet.vehicles), fleet.savedRoutes, old(fleet.visibleRouteIds)),
                     [ChatMessage(User, Trim(input), None)],
                     [Answer(Trim(input), reply, old(fleet.vehicles), fleet.savedRoutes, fleet.warehouses)])
    {
      var userMessage := Trim(input);
      if userMessage == "" {
        return;
      }
      var lowerMessage := ToLower(userMessage);
      var said := ChatMessage(User, userMessage, None);
      if pendingDispatch.Some? && IsConfirmation(lowerMessage) {
        Confirm(said, pendingDispatch.value);
      } else {
        Respond(said, userMessage, reply, parse);
      }
    }
  }
}
