# Fleet Assistant: a verified model of the dispatch dashboard core

Fleet Assistant is a React dashboard for a fleet of delivery vehicles. Its core
has three parts, and this project models each of them in Dafny:

- **The fleet store** (`FleetContext`). The store holds the vehicles, the saved
  routes, the warehouses, the set of routes shown on the map, the focused
  route, warehouse and vehicle, and the chat transcript. Its operations
  dispatch a vehicle, move it, toggle and focus routes and append chat
  messages. Its simulation tick advances every vehicle on a route by a
  thousandth of the route: it interpolates the vehicle's position on the route
  polyline, completes the next stop when the vehicle is near it, recomputes
  the stops left and the ETA, and retires the vehicle to `idle` at the end of
  the route, hiding and unfocusing the finished route.
- **The route service** (`RouteCalculator`). It holds the nearest-neighbour
  ordering of delivery stops, the route optimisation built on it, the choice
  of a vehicle for a route, and the fleet-efficiency report.
- **The chat assistant** (`ChatParsing`, `ChatFormat`, `ChatAssistant`). It
  extracts an action object from the language model's reply with the pattern
  `/\{[^}]+\}/` and resolves vehicle aliases. It performs `show_route`,
  `focus_route`, `dispatch` and `suggest_vehicle`, and builds the route,
  vehicle and warehouse tables for "list" requests. It handles the
  confirmation of a pending dispatch, and lays out messages line by line with
  bold runs.

## How the model is built

The modules follow the source files:

| module | source |
|---|---|
| `FleetTypes` | `src/types/index.ts` |
| `FleetContext` | `src/context/FleetContext.tsx` |
| `RouteCalculator` | `src/services/routeCalculator.ts` |
| `ChatParsing`, `ChatFormat`, `ChatAssistant` | `src/components/ChatAssistant.tsx` |
| `JsText`, `ArrayOps` | the JavaScript string and array built-ins these files use |

**State.** The store is the class `FleetContext.FleetStore`. Each piece of
React state is a field, and each setter is a method with a `modifies` clause.
The chat panel is the class `ChatAssistant.ChatSession`, which holds the store
and the pending dispatch.

**Pure code.** Text handling, the tables, the report and the per-vehicle step
are functions.

**Loops.** The loops of the source are methods with loop invariants, each
proved against a function:
- `NearestNeighbor` and `ScanNearest` against `GreedyOrder` and `NearestAmong`;
- `TourDistance` against `PathLength`;
- `WriteReport` against `Render`;
- the tick's pass over the fleet (`TickAll`) against `TickedUpTo` and
  `FinishedRoutes`.

**Numbers.**
- Route progress is a natural number of thousandths (`FullProgress = 1000`),
  so the tick's `Math.min(p + 0.001, 1)` is exact.
- Coordinates and distances are reals.
- The haversine "within 0.2 km" test of the tick is the parameter `near`, and
  the haversine distance of the route service is the parameter `dist`.
- `Math.round` is rounding half up, written out.

**Inputs from outside.**
- The language model's reply is the parameter `reply`.
- `JSON.parse` is the parameter `parse`; `None` stands for the exception it
  throws.

**JavaScript truthiness.** An empty string is falsy: `Truthy` is used for
`currentRouteId`, `endWarehouseId`, the action's `params` fields, and the
`||` fallbacks of the tables.

**The tick applies its updates in one batch.** The source calls `setVehicles`,
`setFocusedRouteId` and `setVisibleRouteIds` inside one interval callback, and
React applies those updates together. So `FleetStore.Tick` computes the new
vehicles, visible set and focus from the state at the start of the tick and
assigns them once. Because every vehicle update goes by id, the store keeps
vehicle ids unique (`FleetStore.Valid`). Under that invariant, the per-id
rewrites of the source are the per-position rewrites of the model.

**The visible routes of the chat panel.** `handleAction` reads
`visibleRouteIds` (`src/components/ChatAssistant.tsx:153`, `161` and `183`),
but the component never takes it from `useFleet()`
(`src/components/ChatAssistant.tsx:82`). As written, those reads name an
unbound identifier and throw a `ReferenceError`, which the `catch` at
`src/components/ChatAssistant.tsx:203-205` turns into `return false`. The
model gives `handleAction` the store's visible set, which is evidently the set
meant. This path is never reached with a real JSON
parser, because of the nested-object cut described next.

**Nested `params`.** The action pattern `/\{[^}]+\}/` stops at the first `}`.
An action object whose `params` is itself an object is therefore cut at the
inner `}`.
- `ChatParsing.NestedActionCut` proves the cut.
- `ChatAssistant.NestedParamsNeverAct` and `ChatAssistant.NestedParamsNeverPend`
  prove the consequence. When the parser reads ids only from a nested object,
  no action is ever performed and no dispatch is ever left pending.

The model keeps the pattern as written.

## Model

| member | source | states |
|---|---|---|
| FleetTypes.FindRoute | src/context/FleetContext.tsx:140 | `find` by id: none exactly when no route has the id; otherwise a route of the list with that id (the first one, by `FleetTypes.FindRouteFirst`) |
| FleetTypes.FindVehicle | src/components/ChatAssistant.tsx:179 | `find` by id: none exactly when no vehicle has the id; otherwise a vehicle of the list with that id (the first one, by `FleetTypes.FindVehicleFirst`) |
| FleetTypes.FindWarehouse | src/components/ChatAssistant.tsx:220-221 | `find` by id: none exactly when no warehouse has the id; otherwise a warehouse of the list with that id (the first one, by `FleetTypes.FindWarehouseFirst`) |
| FleetTypes.FindRouteFirst | src/context/FleetContext.tsx:140 | `find` returns the first route in list order whose id matches |
| FleetTypes.FindVehicleFirst | src/components/ChatAssistant.tsx:179 | `find` returns the first vehicle in list order whose id matches |
| FleetTypes.FindWarehouseFirst | src/components/ChatAssistant.tsx:220-221 | `find` returns the first warehouse in list order whose id matches |
| ArrayOps.FirstIndex | src/context/FleetContext.tsx:175 | `findIndex`: the first position satisfying the predicate, or -1 exactly when none does |
| ArrayOps.FirstIndexFrom | src/components/ChatAssistant.tsx:146 | the first position at or after `from` satisfying the predicate, or -1 when none does |
| ArrayOps.Filter | src/services/routeCalculator.ts:113-115 | `filter`: every kept element satisfies the predicate and comes from the list; every element satisfying it is kept |
| ArrayOps.FilterMultiset | src/services/routeCalculator.ts:113-115 | `filter` keeps every element that satisfies the predicate exactly as often as it occurs in the list, and nothing else |
| ArrayOps.FilterConcat | src/services/routeCalculator.ts:113-115 | `filter` of a concatenation is the concatenation of the filters, and a single element is kept exactly when it satisfies the predicate; so the kept elements stay in list order |
| ArrayOps.FilterHead | src/services/routeCalculator.ts:117-121 | the filtered list is empty exactly when no element qualifies, and otherwise starts with the first one that does |
| ArrayOps.FilterDisjointCount | src/services/routeCalculator.ts:125-135 | two filters with disjoint predicates keep at most as many elements together as the list has |
| JsText.ToLower | src/components/ChatAssistant.tsx:151 | `toLowerCase` on the ASCII letters: the length is kept, `A`-`Z` become `a`-`z`, every other character is kept |
| JsText.ToUpper | src/components/ChatAssistant.tsx:225 | `toUpperCase` on the ASCII letters: the length is kept, `a`-`z` become `A`-`Z`, every other character is kept |
| JsText.Trim | src/components/ChatAssistant.tsx:292-294 | `trim`: empty exactly for an all-whitespace string; otherwise starts and ends with a non-space, and is the string with its leading and trailing whitespace cut |
| JsText.Split | src/components/ChatAssistant.tsx:10 | `split('\n')`: at least one piece, none holding the separator |
| JsText.JoinSplit | src/components/ChatAssistant.tsx:10 | joining the pieces of a split with the separator gives the string back |
| JsText.NatToString | src/components/ChatAssistant.tsx:253 | `String(n)` for a whole number: a non-empty string of decimal digits whose value is `n`, with no leading zero |
| JsText.IntToString | src/components/ChatAssistant.tsx:252 | `String(n)` for an integer: a minus followed by the digits of `-n` exactly when `n` is negative, and the digits of `n` otherwise |
| FleetContext.NextProgress | src/context/FleetContext.tsx:143-144 | `Math.min(p + 0.001, 1)` in thousandths: never past the end; one thousandth more exactly when that stays short of the end |
| FleetContext.SegmentIndices | src/context/FleetContext.tsx:146-147 | the bracketing vertices: the floor of `p * (length - 1)` and the next vertex, clamped to the last one |
| FleetContext.PositionAt | src/context/FleetContext.tsx:146-156 | the interpolated position lies between the two bracketing vertices in each coordinate; it is the first vertex at progress 0 and the last at the end |
| FleetContext.FirstPendingStop | src/context/FleetContext.tsx:175 | the first stop in route order that is not completed, or -1 exactly when all are completed |
| FleetContext.CompleteNextStop | src/context/FleetContext.tsx:159-182 | at most one stop is newly completed: the first pending one, and only when the vehicle is near it, in which case it is completed |
| FleetContext.EtaMinutes | src/context/FleetContext.tsx:186-187 | `Math.max(1, Math.round(30 * (1 - p)))`: between 1 and 30; when the remaining share of 30 minutes is at least one half, the ETA is that share rounded to the nearest minute, halves up; otherwise it is 1 |
| FleetContext.EtaNonIncreasing | src/context/FleetContext.tsx:186-187 | the ETA never grows as progress grows |
| FleetContext.StepVehicle | src/context/FleetContext.tsx:137-207 | one vehicle's step: skipped exactly when it is not on a known route; finished exactly when its progress reaches the end; otherwise advanced by one thousandth, with its position the interpolated point of the route at the new progress, its completed stops those `CompleteNextStop` gives there, the stops left counted from that set, and the ETA `EtaMinutes` of the new progress |
| FleetContext.StepOnRoute | src/context/FleetContext.tsx:143-205 | one tick either keeps a vehicle on its route, in route, one thousandth further, or retires it once its progress reaches the end |
| FleetContext.StopCount | src/context/FleetContext.tsx:103 | the stop count of the route with the id, or 0 when there is none |
| FleetContext.Ticked | src/context/FleetContext.tsx:191-207 | a vehicle's step never changes its id |
| FleetContext.TickedUpTo | src/context/FleetContext.tsx:137-209 | the fleet after the first `n` vehicles' steps: those vehicles are stepped and the others untouched; ids stay unique |
| FleetContext.FinishedBy | src/context/FleetContext.tsx:189-205 | a vehicle finishes at most one route, its own, exactly when it is on a known route whose end it reaches |
| FleetContext.DiffUnion | src/context/FleetContext.tsx:199-205 | hiding one set of finished routes and then another hides the union of both |
| FleetContext.FocusAfter | src/context/FleetContext.tsx:196-198 | the focus is cleared exactly when it is on a finished route, and kept otherwise |
| FleetContext.FocusAfterUnion | src/context/FleetContext.tsx:196-198 | clearing the focus for some finished routes and then for others equals clearing it for all at once |
| FleetContext.VisibleUpToFinished | src/context/FleetContext.tsx:199-205 | hiding finished routes vehicle by vehicle hides exactly the routes finished so far |
| FleetContext.FocusUpToFinished | src/context/FleetContext.tsx:196-198 | clearing the focus vehicle by vehicle clears it exactly when it is on a route finished so far |
| FleetContext.RunFinishes | src/context/FleetContext.tsx:143-205 | a vehicle on a known route stays on it for the remaining ticks, and after exactly `1000 - p` ticks it is idle, keeps its id and alias, has progress 0 and no stops left, and has its route, position, ETA and completed stops cleared |
| FleetContext.DispatchThenRun | src/context/FleetContext.tsx:95-109 | a dispatched vehicle starts on the route with progress 0, one pending stop per stop and a 30-minute ETA, and is idle again after 1000 ticks |
| FleetContext.MapById | src/context/FleetContext.tsx:96-108 | `vehicles.map(v => v.id === id ? f(v) : v)`: each vehicle with the id is rewritten and every other one is unchanged |
| FleetContext.MapByIdAt | src/context/FleetContext.tsx:191-195 | with unique ids, mapping over one vehicle's id rewrites that position alone and keeps ids unique |
| FleetContext.Dispatched | src/context/FleetContext.tsx:97-107 | definition: in route on the route, progress 0, the given stop count, a 30-minute ETA and no completed stops |
| FleetContext.Moved | src/context/FleetContext.tsx:113-129 | definition: the new position, progress, stops left and ETA; the completed set when given, the old one otherwise |
| FleetContext.Retired | src/context/FleetContext.tsx:193 | definition: idle, with route, position, ETA and completed stops cleared and progress and stops left 0 |
| FleetContext.Toggled | src/context/FleetContext.tsx:71-84 | toggling flips the id's membership and leaves every other id as it was |
| FleetContext.ToggleTwice | src/context/FleetContext.tsx:71-84 | toggling twice gives back the set |
| FleetContext.RouteOfVehicle | src/context/FleetContext.tsx:217-219 | there is a route to show exactly when the id is non-empty and the first vehicle with it has a non-empty current route; that route is the vehicle's |
| FleetContext.StepOne | src/context/FleetContext.tsx:137-207 | one vehicle's turn of the tick: its step is applied at its position, its finished route is hidden, and the focus is cleared when it was on that route |
| FleetContext.TickAll | src/context/FleetContext.tsx:136-209 | the pass over the fleet: every vehicle is stepped; exactly the finished routes are hidden; the focus is cleared exactly when it was on a finished route |
| FleetContext.FleetStore.constructor | src/context/FleetContext.tsx:28-63 | the store as mounted: the seed vehicles, routes, warehouses and chat; nothing visible or focused |
| FleetContext.FleetStore.SetSavedRoutes | src/context/FleetContext.tsx:65-69 | the fetched routes replace the saved ones |
| FleetContext.FleetStore.ToggleRouteVisibility | src/context/FleetContext.tsx:71-84 | the route's visibility flips; hiding the focused route clears the focus |
| FleetContext.FleetStore.SetFocusedRoute | src/context/FleetContext.tsx:32 | the focused route is set as given |
| FleetContext.FleetStore.SetFocusedWarehouse | src/context/FleetContext.tsx:33 | the focused warehouse is set as given |
| FleetContext.FleetStore.AddChatMessage | src/context/FleetContext.tsx:86-93 | the message is appended and the transcript before it is unchanged |
| FleetContext.FleetStore.DispatchVehicle | src/context/FleetContext.tsx:95-109 | each vehicle with the id is put in route on the route with progress 0, the route's stop count, a 30-minute ETA and no completed stops; every other vehicle is unchanged; ids stay unique |
| FleetContext.FleetStore.UpdateVehiclePosition | src/context/FleetContext.tsx:111-131 | each vehicle with the id gets the new position, progress, stops left and ETA, and the completed set when one is given; every other vehicle is unchanged |
| FleetContext.FleetStore.Tick | src/context/FleetContext.tsx:133-209 | one tick: the vehicles are the fleet with every vehicle stepped; the visible routes lose exactly the finished routes; the focus is cleared exactly when it was on one; ids stay unique |
| FleetContext.FleetStore.SetFocusedVehicle | src/context/FleetContext.tsx:215-226 | the vehicle is focused; when it has a route, that route is added to the visible ones and focused; otherwise both are unchanged |
| RouteCalculator.NearestAmong | src/services/routeCalculator.ts:39-48 | the scan's choice: a candidate at the least distance, the earliest one on ties |
| RouteCalculator.RemoveAt | src/services/routeCalculator.ts:52 | `splice(k, 1)`: one element fewer, exactly the one at `k`; the elements before `k` keep their places and those after it move down by one, in order |
| RouteCalculator.IndicesRemoveAt | src/services/routeCalculator.ts:50-52 | removing a candidate removes its index from the indices |
| RouteCalculator.GreedyOrder | src/services/routeCalculator.ts:29-56 | the greedy tour lists every candidate's index exactly once: a permutation of the indices |
| RouteCalculator.GreedyStep | src/services/routeCalculator.ts:50-52 | one loop turn appends the nearest candidate and continues the tour from it |
| RouteCalculator.ScanNearest | src/services/routeCalculator.ts:39-48 | the inner loop finds the first candidate at the least distance |
| RouteCalculator.NearestNeighbor | src/services/routeCalculator.ts:29-56 | the loop produces the greedy tour from the start point |
| RouteCalculator.Candidates | src/services/routeCalculator.ts:71-74 | each stop becomes a candidate holding its position in the request and its coordinates |
| RouteCalculator.CandidateIndices | src/services/routeCalculator.ts:71-74 | the candidates' indices are `0 .. n-1` |
| RouteCalculator.PermutationOfRange | src/services/routeCalculator.ts:104 | an order with the multiset of `0 .. n-1` has length `n` and holds every stop index exactly once, each in range |
| RouteCalculator.Endpoints | src/services/routeCalculator.ts:62-69 | the warehouses exist exactly when the start id is found and, when a non-empty end id is given, that one is too; the end defaults to the start |
| RouteCalculator.PathLengthAppend | src/services/routeCalculator.ts:82-97 | a joined path is as long as both parts plus the leg joining them |
| RouteCalculator.PathLengthAtLeastLeg | src/services/routeCalculator.ts:82-97 | with non-negative distances, a path is never shorter than any of its legs |
| RouteCalculator.PathLengthNonNegative | src/services/routeCalculator.ts:82-97 | with non-negative distances, a path length is non-negative |
| RouteCalculator.TourPoints | src/services/routeCalculator.ts:82-97 | the tour: start warehouse, the stops in the given order, end warehouse |
| RouteCalculator.TourDistance | src/services/routeCalculator.ts:82-97 | the distance loop sums the legs of the tour from the start warehouse through the ordered stops to the end warehouse |
| RouteCalculator.Round | src/services/routeCalculator.ts:99 | `Math.round`: the nearest integer, halves rounded up |
| RouteCalculator.Summary | src/services/routeCalculator.ts:99-106 | the result keeps the order; the distance is a whole number of tenths of a kilometre within half a tenth of the total, so the nearest tenth; the time at 40 km/h is the nearest minute; the explanation shows both |
| RouteCalculator.OptimizeRoute | src/services/routeCalculator.ts:58-107 | fails with invalid warehouse ids exactly when a warehouse is missing, and on a request without stops exactly when the warehouses exist; otherwise the order is the greedy tour from the start warehouse, a permutation of the stop indices, and the figures summarise the tour's length |
| RouteCalculator.SuggestBestVehicle | src/services/routeCalculator.ts:109-122 | none exactly when no vehicle is available or idle; otherwise the first such vehicle in fleet order |
| RouteCalculator.Analyze | src/services/routeCalculator.ts:124-158 | the active, free and inactive counts are the lengths of `ActiveRoutes`, `FreeVehicles` and `InactiveRoutes`, against all routes and vehicles; active and inactive routes never outnumber the routes; a recommendation exactly when some route is inactive and some vehicle free; full capacity exactly when no vehicle is free; at most three suggestions, the i-th pairing the i-th free vehicle's alias with the i-th inactive route's name |
| RouteCalculator.ActiveRoutes | src/services/routeCalculator.ts:125-127 | definition: the routes some in-route vehicle is on, in list order |
| RouteCalculator.InactiveRoutes | src/services/routeCalculator.ts:133-135 | definition: the routes no vehicle is on, in list order |
| RouteCalculator.FreeVehicles | src/services/routeCalculator.ts:129-131 | definition: the available or idle vehicles, in fleet order |
| RouteCalculator.SuggestionLine | src/services/routeCalculator.ts:149 | definition: `- alias → route name`, with the arrow U+2192, and a newline |
| RouteCalculator.SuggestionLineAsWritten | src/services/routeCalculator.ts:149 | definition: the line as the file spells it, with U+00E2 U+2020 U+2019 in place of the arrow |
| RouteCalculator.SuggestionLines | src/services/routeCalculator.ts:147-150 | definition: one suggestion line per assignment, in order |
| RouteCalculator.ReportHeader | src/services/routeCalculator.ts:137-140 | definition: the title and the active, available and inactive counts |
| RouteCalculator.RecommendationIntro | src/services/routeCalculator.ts:143-145 | definition: the recommendation sentence with the free and inactive counts, then the assignments heading |
| RouteCalculator.ReportBody | src/services/routeCalculator.ts:142-155 | definition: the recommendation and its lines, or the full-capacity sentence, or the efficiency sentence |
| RouteCalculator.Render | src/services/routeCalculator.ts:137-157 | definition: the header followed by the body |
| RouteCalculator.SuggestionReadsBack | src/services/routeCalculator.ts:149 | a suggestion line with a real arrow reads back as the alias and route name it shows |
| RouteCalculator.SuggestionAsWrittenUnreadable | src/services/routeCalculator.ts:149 | the line as the source spells it holds no arrow, so it never reads back as a pair |
| RouteCalculator.WriteReport | src/services/routeCalculator.ts:137-157 | the report built line by line is the rendering of the figures |
| RouteCalculator.AnalyzeRouteEfficiency | src/services/routeCalculator.ts:124-158 | the report is the rendering of the analysed figures |
| ChatParsing.FindActionFrom | src/components/ChatAssistant.tsx:146 | the leftmost match of `/\{[^}]+\}/` at or after a position; none exactly when there is no match there |
| ChatParsing.FindAction | src/components/ChatAssistant.tsx:146 | `match`: the leftmost match, which is the only one starting there; none exactly when nothing matches |
| ChatParsing.ExtractAction | src/components/ChatAssistant.tsx:146 | the matched text opens with `{`, closes with `}`, has a character between them and no other `}`; it is exactly the slice of the reply at the leftmost match; none exactly when nothing matches |
| ChatParsing.EmptyBracesNoMatch | src/components/ChatAssistant.tsx:146 | a lone `{}` is not a match |
| ChatParsing.NestedActionCut | src/components/ChatAssistant.tsx:146 | an action with nested `params` is cut at the inner `}` |
| ChatParsing.StripAction | src/components/ChatAssistant.tsx:288 | `replace` of the first match: the text before and after the match, joined |
| ChatParsing.VisibleReply | src/components/ChatAssistant.tsx:288 | the reply without its action, trimmed, whenever anything is left; the whole reply otherwise; empty only for an empty reply |
| ChatParsing.ReplyWithoutActionIsTrimmed | src/components/ChatAssistant.tsx:288 | a reply without `{` is shown trimmed, or as it is when it is all whitespace |
| ChatParsing.ParseAction | src/components/ChatAssistant.tsx:146-148 | no action without a match; otherwise the parse of the matched text |
| ChatParsing.ExtractedActionHasNoIds | src/components/ChatAssistant.tsx:146-150 | when the parser reads ids only from a nested object, an extracted action never carries a route or vehicle id |
| ChatParsing.ResolveVehicleId | src/components/ChatAssistant.tsx:171-176 | a `U-`/`u-` id becomes the id of the first vehicle whose alias matches it without regard to case; any other id, or an alias no vehicle has, is kept |
| ChatParsing.NameOr | src/components/ChatAssistant.tsx:227-228 | `w?.name || fallback`: the warehouse's name when the warehouse exists and its name is non-empty, the fallback otherwise |
| ChatParsing.AssignedVehicle | src/components/ChatAssistant.tsx:222 | `find` on the current route: none exactly when no vehicle has the route as its current one; otherwise the first such vehicle in fleet order |
| ChatParsing.BusinessNames | src/components/ChatAssistant.tsx:230 | the stops' business names, in order |
| ChatParsing.RouteRowOf | src/components/ChatAssistant.tsx:219-234 | a route row: the id in capitals, name, warehouse names or `Unknown`, stop count and names; `Active` exactly when some vehicle has the route, `Available` exactly when none does; the assigned vehicle is the alias of the first vehicle on the route, or `None` when there is no such vehicle or its alias is empty |
| ChatParsing.PercentText | src/components/ChatAssistant.tsx:254 | `${Math.round(p * 100)}%`: the decimal digits of the nearest whole percentage of `p` thousandths, halves up, with no leading zero, followed by `%` |
| ChatParsing.CountCell | src/components/ChatAssistant.tsx:252-253 | a dash exactly when the figure is missing or zero; otherwise the integer's digits followed by the suffix |
| ChatParsing.VehicleRowOf | src/components/ChatAssistant.tsx:245-256 | a vehicle row: alias, plate and status; the current route's name exactly when the route id is non-empty and names a known route with a non-empty name, a dash otherwise; the ETA as `n min`, the stops left as `n` and the progress as its percentage, each a dash when missing or zero, and only then |
| ChatParsing.WarehouseRowOf | src/components/ChatAssistant.tsx:267-279 | a warehouse row: the id in capitals, name, address; the numbers of routes leaving and reaching it are the lengths of the routes filtered on origin and on destination, zero exactly when none does |
| ChatParsing.ParseStructuredResponse | src/components/ChatAssistant.tsx:209-289 | a table exactly when a list is asked for and routes, vehicles or warehouses are named; the route table first, then vehicles, then warehouses, each with one row per entry in order; otherwise the visible reply |
| ChatParsing.AsksForList | src/components/ChatAssistant.tsx:215 | definition: the message contains `list`, `show all`, `all routes`, `all vehicles` or `all warehouses` |
| ChatParsing.IsConfirmation | src/components/ChatAssistant.tsx:305 | definition: the lowercased message is one of `yes`, `confirm`, `dispatch`, `send it`, `si`, `ok` |
| ChatParsing.MentionsDispatch | src/components/ChatAssistant.tsx:342 | definition: the message contains `best vehicle`, `which vehicle`, `what vehicle`, `send` or `want to` |
| ChatFormat.StripStars | src/components/ChatAssistant.tsx:20 | `replace(/\*\*/g, '')`: no `**` is left and the text never grows; `ChatFormat.StripStarsAround` and `ChatFormat.StripStarsRun` fix which characters stay |
| ChatFormat.StripStarsRemovesPairs | src/components/ChatAssistant.tsx:20 | only stars are removed, an even number of them; every other character is kept in order; a text without stars is unchanged |
| ChatFormat.StripStarsAround | src/components/ChatAssistant.tsx:20 | a character other than `*` stays where it is, and the text on each side of it is stripped on its own |
| ChatFormat.StripStarsRun | src/components/ChatAssistant.tsx:20 | a whole run of `k` stars keeps one star when `k` is odd and none when it is even; with `StripStarsAround` this fixes the result on every text, e.g. `**a** **b**` becomes `a b` |
| ChatFormat.BoldCloseFrom | src/components/ChatAssistant.tsx:28 | the lazy close of a bold run: the first `**` reached without crossing a line terminator |
| ChatFormat.BoldCloseFirst | src/components/ChatAssistant.tsx:28 | the close found is a `**` reached without a line terminator, and no `**` comes before it; there is none exactly when no such `**` exists |
| ChatFormat.BoldAt | src/components/ChatAssistant.tsx:28 | a bold run starting at a position opens and closes with `**` |
| ChatFormat.BoldAtFirst | src/components/ChatAssistant.tsx:28 | a bold run starts at a position exactly when `**` opens there and another `**` follows on the same line; the run ends at the first such one |
| ChatFormat.BoldAtSlice | src/components/ChatAssistant.tsx:28 | a bold run found inside a slice of the text is also a bold run of the whole text |
| ChatFormat.BoldSplitFrom | src/components/ChatAssistant.tsx:28 | the split from a position has an odd number of pieces, and every piece at an odd position is a run that starts and ends with `**`; `ChatFormat.BoldSplitLeftmost` makes every captured run the leftmost match, and `ChatFormat.BoldSplitConcat` glues the pieces back |
| ChatFormat.BoldSplitConcat | src/components/ChatAssistant.tsx:28 | gluing the split pieces back together gives the text back |
| ChatFormat.BoldSplit | src/components/ChatAssistant.tsx:28 | `split(/(\*\*.*?\*\*)/g)`: the pieces glue back to the text; every piece at an odd position is the run the pattern matches where it begins; no match of the text begins inside a text piece, and no text piece holds a run of its own; together these fix the split |
| ChatFormat.BoldSplitTextPieces | src/components/ChatAssistant.tsx:28 | when no run starts between the piece's start and the scan position, each text piece of the split holds no bold run of its own |
| ChatFormat.BoldSplitLeftmost | src/components/ChatAssistant.tsx:28 | the split takes the leftmost match each time: every captured run is the match of the text where the piece begins, and no match begins inside a text piece from the scan position on |
| ChatFormat.LeftmostCons | src/components/ChatAssistant.tsx:28 | a match cut out at the scan position, after the text before it, extends a leftmost split of the rest |
| ChatFormat.SegmentOf | src/components/ChatAssistant.tsx:33-38 | a piece is bold exactly when it starts and ends with `**`, and is shown without its stars; a plain piece is shown as it is |
| ChatFormat.Segments | src/components/ChatAssistant.tsx:28-38 | one segment per piece of the split, each the piece as `SegmentOf` lays it out (so a text piece that starts and ends with `**` is bold too); every captured run is bold and shows the run with its stars removed; every plain segment is its piece, which holds no bold run |
| ChatFormat.RemoveFirst | src/components/ChatAssistant.tsx:27 | `replace(c, '')`: the first occurrence removed, or the text unchanged when there is none |
| ChatFormat.RemoveFirstIsFirst | src/components/ChatAssistant.tsx:27 | the occurrence removed is the first one: the text before it and the text after it, joined |
| ChatFormat.ClassifyLine | src/components/ChatAssistant.tsx:13-70 | a blank line breaks; a line wrapped in `**` is a heading; a line starting with ✓ or • is an item without the mark; anything else is a paragraph |
| ChatFormat.FormatMessageContent | src/components/ChatAssistant.tsx:9-74 | one block per line, in order, each the line's classification |
| ChatFormat.SplitCount | src/components/ChatAssistant.tsx:10 | a split has one more piece than the separator has occurrences |
| ChatFormat.CountAbsent | src/components/ChatAssistant.tsx:10 | a text without the character counts none of it |
| ChatFormat.CountAppend | src/components/ChatAssistant.tsx:10 | counts add up over concatenation |
| ChatFormat.BlocksPerLine | src/components/ChatAssistant.tsx:9-74 | a message has one block per newline, plus one |
| ChatAssistant.DispatchTarget | src/components/ChatAssistant.tsx:168-181 | a dispatch target exactly when the lowercased route id and the alias-resolved vehicle id both exist; it is that pair |
| ChatAssistant.RevealIfHidden | src/components/ChatAssistant.tsx:153-155 | the route is revealed exactly when it is not yet visible |
| ChatAssistant.Recommendation | src/components/ChatAssistant.tsx:196 | definition: the recommendation naming the vehicle's alias and plate and the route's name |
| ChatAssistant.PlanAction | src/components/ChatAssistant.tsx:144-207 | handled only with an action and a route id; a shown route is always handled; a focused route, a dispatch and a suggestion exactly when what they name exists; a known shown or focused route is revealed exactly when it is hidden; a handled focus is on the lowercased route id; a dispatch reveals its route when hidden; a handled suggestion adds a message naming the first free vehicle; an unhandled action has no effect; only a shown or focused route or a dispatch reveals a route, and a suggestion reveals, focuses and dispatches nothing; a dispatch without a vehicle id is ignored |
| ChatAssistant.NestedParamsNeverAct | src/components/ChatAssistant.tsx:144-207 | with nested `params`, no reply's action is ever handled |
| ChatAssistant.Suggested | src/components/ChatAssistant.tsx:342-356 | a dispatch is suggested exactly when the message mentions choosing or sending a vehicle and the reply's action is `suggest_vehicle` with both ids, as written |
| ChatAssistant.NextPending | src/components/ChatAssistant.tsx:342-356 | definition: the suggested dispatch, if any, else the pending one |
| ChatAssistant.NestedParamsNeverPend | src/components/ChatAssistant.tsx:342-356 | with nested `params`, no dispatch is ever left pending |
| ChatAssistant.ConfirmationText | src/components/ChatAssistant.tsx:319-331 | the apology exactly when the pending dispatch does not resolve; otherwise exactly the success prefix, the vehicle id as suggested in capitals, ` is now en route to `, the route's name and a full stop |
| ChatAssistant.ConfirmationPlan | src/components/ChatAssistant.tsx:319-331 | definition: the resolved dispatch, handled exactly when there is one, and the confirmation answer |
| ChatAssistant.ChatSession.constructor | src/components/ChatAssistant.tsx:79 | a new panel has no pending dispatch |
| ChatAssistant.ChatSession.HandleAction | src/components/ChatAssistant.tsx:144-207 | the reply's action is performed as planned, and its result says whether it was handled; nothing else changes |
| ChatAssistant.ChatSession.ShowRoute | src/components/ChatAssistant.tsx:150-156 | a known hidden route is revealed; handled either way |
| ChatAssistant.ChatSession.FocusRoute | src/components/ChatAssistant.tsx:157-166 | a known route is revealed when hidden and focused |
| ChatAssistant.ChatSession.Dispatch | src/components/ChatAssistant.tsx:167-187 | when route and vehicle resolve, the vehicle is dispatched and the route revealed |
| ChatAssistant.ChatSession.SuggestVehicle | src/components/ChatAssistant.tsx:188-200 | for a known route with a free vehicle, the recommendation of the first free one is added |
| ChatAssistant.ChatSession.Confirm | src/components/ChatAssistant.tsx:305-333 | after the user's line: the dispatch when it resolves, the success or failure message, and the pending dispatch cleared |
| ChatAssistant.ChatSession.NotePending | src/components/ChatAssistant.tsx:342-356 | a suggested dispatch becomes pending; otherwise the pending one is kept |
| ChatAssistant.ChatSession.Respond | src/components/ChatAssistant.tsx:334-362 | after the user's line: the reply's action performed, then the answer, read against the vehicles as they were before the action; a suggested dispatch becomes pending |
| ChatAssistant.ChatSession.HandleSend | src/components/ChatAssistant.tsx:291-372 | a blank input changes nothing; otherwise the trimmed input joins the chat; a confirmation word with a pending dispatch settles it, and any other message gets the reply's action and answer |

## Left out

- Floating point. Coordinates and distances are reals. Progress is counted in
  exact thousandths.
- The haversine formulas (`src/context/FleetContext.tsx:162-173` and
  `src/services/routeCalculator.ts:17-27`). They become the parameters `near`
  and `dist`.
- `setInterval` and the 500 ms period of the tick. One tick is one call of
  `FleetStore.Tick`.
- `FleetContext.FleetStore.Tick`: the source takes its list of in-route
  vehicles, and the `focusedRouteId` it compares at
  `src/context/FleetContext.tsx:196`, when the effect runs
  (`src/context/FleetContext.tsx:213`), not when the interval fires. The model
  steps the vehicles and tests the focus as they are at the tick. Vehicles that are not on a route are
  skipped, as the source's filter drops them.
- `FleetContext.FleetStore.Tick`: the model requires every vehicle on a known
  route to have a non-empty polyline (`FleetReady`). The source would read
  `routeGeometry[-1]` and fail on an empty one.
- The route-geometry fetch (`fetchAllRoutes`, Mapbox). `SetSavedRoutes`
  installs its result. `src/utils/mapbox.ts` is not part of this model.
- The React render-time snapshot. `handleSend` reads the vehicles and routes
  of the render, not the store after its own updates. `ChatSession.Respond`
  uses the vehicles from before the action for the answer. The model does not
  capture a later render.
- Message ids, timestamps, `isProcessing`, clearing the input box, scrolling,
  and the concurrency of overlapping sends.
- `buildContext` and `queryGemini`, which are the prompt and the network call.
  The reply is the parameter `reply`. `src/services/gemini.ts` is not part of
  this model.
- `JSON.parse`, which is the parameter `parse`. Action fields that are not
  strings are not modelled.
- The `catch` blocks of `handleAction` and `handleSend`. `JSON.parse` failures
  are `None`. Apart from those and the `visibleRouteIds` reads below, the
  source's calls do not throw on strings. The "I'm having trouble processing
  that request" message is never produced in the model.
- The `visibleRouteIds` reads of `handleAction`. The model reads the store's
  set instead of the unbound name; see above. As written, each read throws, and
  the `catch` returns false. So for `show_route` and `focus_route` on a known
  route nothing happens and the result is false. For `dispatch` the vehicle is
  already dispatched (line 182) when the throw comes, so the route is not
  revealed and the result is false. The model instead performs the reveal and
  the focus and reports the action as handled.
- The warehouse table's coordinates. The source prints them with `toFixed(4)`;
  the model keeps the `Coord` value.
- `optimizationType` of the optimisation request, which the source never reads.
- Colours, CSS classes and the `isUser` flag of `formatMessageContent`, which
  change only the styling, not the blocks.
- JsText.ToLower: lowercases the ASCII letters only. JavaScript's
  `toLowerCase` also maps other letters (`Ä` to `ä`); the model keeps them,
  because Unicode case tables are not modelled. Ids and aliases in the seed
  data are ASCII.
- JsText.ToUpper: uppercases the ASCII letters only, for the same reason.
- RouteCalculator.WriteReport: each suggestion line prints the arrow U+2192,
  where the source file spells the three characters U+00E2 U+2020 U+2019 (see
  Findings). `RouteCalculator.SuggestionLineAsWritten` is the line as written.
- RouteCalculator.AnalyzeRouteEfficiency: its report uses the corrected arrow,
  as `RouteCalculator.WriteReport` does.
- The demo messages of the seed chat (`src/context/FleetContext.tsx:35-63`).
  The constructor takes the seed chat as a parameter.

## Findings

| source | as written | input that shows it | evidently intended | confidence | as-written member | corrected member |
|---|---|---|---|---|---|---|
| src/services/routeCalculator.ts:149 | each suggested assignment is printed with the three characters `â†’` (U+00E2 U+2020 U+2019), the UTF-8 bytes of an arrow read as Windows-1252 | any free vehicle and inactive route, e.g. alias `U-12` and route `North Loop`: the line reads `- U-12 â†’ North Loop` | the arrow `→` (U+2192) between the alias and the route name, so the line reads as an assignment | not executed | RouteCalculator.SuggestionLineAsWritten, RouteCalculator.SuggestionAsWrittenUnreadable | RouteCalculator.SuggestionLine, RouteCalculator.SuggestionReadsBack |
