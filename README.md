# SpaceTraders client core, modelled in Dafny

`SpaceTradersPy.py` is a Python client for the SpaceTraders REST API. A
`SpaceTrader` object holds an agent's session (token, callsign, headquarters,
starting faction, credits, last error body). Its endpoints send a request
and branch on the HTTP status of the answer. Four pieces of deterministic
logic live inside that plumbing, and this project models them:

- **Record hydration.** The constructors of `Ship`, `ShipNav`, `System` and
  `Waypoint` walk the keys of a JSON object in order. Each recognised key
  sets one attribute and unknown keys are ignored. Nested objects go
  through the other constructors. The source's write collisions are kept
  as written:
  - `reactor` and `cargo` overwrite a Ship's `nav`;
  - `flightMode` overwrites a ShipNav's `status`;
  - `y` overwrites a System's `x`;
  - `chart` overwrites a Waypoint's `waypoint_type`.
- **Pagination clamping.** `limit` is clamped to [1, 20] and `page` to at
  least 1.
- **Status dispatch.** The status codes are 200 OK, 401 Unauthorized,
  404 Not Found and 409 Conflict (sections 15.3.1, 15.5.2, 15.5.5 and
  15.5.10 of RFC 9110).
  - 200 unwraps `body["data"]`.
  - 401 raises `TokenError`.
  - 404 raises `ResourceNotFound`, except in `get_agent`.
  - Any other code stores the body in `error` and answers it or `None`.
  - The contract actions differ: they answer 1 on 200, raise on 401 and 404 like the others, and answer 0 on any other code without storing anything (`Dispatch.ContractAction`).
  - `register_agent` adds 409, which raises `AgentSymbolTaken`, and turns every other failure into `CouldNotRegisterAgent`.
- **Headquarters system.** The system symbol is the first two `-`-separated
  parts of the headquarters waypoint symbol.

Layout:

| file | module | contents |
|---|---|---|
| `wrappers.dfy` | `Wrappers` | `Option` and `Result` |
| `json.dfy` | `JsonValues` | JSON values with ordered objects, Python's exceptions as `Failure` tags, `d[key]`, iteration, and "the last entry with one of these keys" |
| `keywalk.dfy` | `KeyWalk` | the key-by-key constructor loop as a fold (`Walk`), and "hydrate every item of a list" (`HydrateAll`) |
| `records.dfy` | `Records` | each record as a value: its one-key step, a closed form (last write per attribute) proved equal to the walk, and the hydration properties |
| `hydration.dfy` | `Hydration` | the four record classes with mutable fields; each constructor is a `while` loop proved against the walk |
| `symbols.dfy` | `Symbols` | `str.split("-")`, its inverse join, and the headquarters system |
| `paging.dfy` | `Paging` | the limit/page clamp |
| `dispatch.dfy` | `Dispatch` | the status dispatch and the 200 arm of each endpoint, as values |
| `registration.dfy` | `Registration` | `register_agent` as a value, as written and corrected |
| `client.dfy` | `Client` | class `SpaceTrader`, whose endpoints change its fields and are proved against `Dispatch` and `Registration` |

Modelling choices:

- The transport is abstract. Each endpoint takes the server's answer
  (`Dispatch.Response`, a status and a parsed JSON body) where the source
  calls `requests`.
- A JSON object is a sequence of (key, value) pairs in the order a Python
  dict iterates them.
- An attribute the constructor never assigned is `None`.
- An exception is a `Failure` result carrying the exception's kind.

## Model

| member | source | states |
|---|---|---|
| JsonValues.LastEntryIsLastWrite | SpaceTradersPy.py:852-875 | There is no entry with one of the keys exactly when no key of the object is among them. Otherwise the entry found is the one at the greatest such index. |
| JsonValues.LastWriteWins | SpaceTradersPy.py:852-875 | If index i holds one of the keys and no later entry does, then the entry found and the value written are those of i. |
| JsonValues.WrittenIffMentioned | SpaceTradersPy.py:852-875 | One of the keys writes a value exactly when one of them occurs in the object. |
| JsonValues.Subscript | SpaceTradersPy.py:62-64 | `d[key]`: TypeError on a non-object. On an object it succeeds exactly when the key occurs, answering a value stored under that key; otherwise KeyError(key). |
| JsonValues.Iterate | SpaceTradersPy.py:241 | `for x in v`: an array yields its items, an object its keys in order, a string its characters. Anything else raises TypeError. |
| KeyWalk.WalkFailureSticks | SpaceTradersPy.py:886-899 | Once an entry raises, the keys after it are never reached. |
| KeyWalk.WalkFailsAt | SpaceTradersPy.py:886-899 | If entry i is the first to raise, the constructor raises that exception. |
| KeyWalk.WalkStepsTo | SpaceTradersPy.py:852-853 | Walking one more entry applies that entry's step to the state reached so far. |
| KeyWalk.WalkIgnores | SpaceTradersPy.py:874-875 | An entry whose step changes nothing can be removed from any position without changing the result. |
| KeyWalk.HydrateAll | SpaceTradersPy.py:918-920 | A list that hydrates has one record per item. |
| KeyWalk.HydrateAllItemwise | SpaceTradersPy.py:918-920 | The list hydrates exactly when every item does, and record i is item i's record. Otherwise the exception is the first failing item's, and all items before it hydrate. |
| KeyWalk.HydrateAllPrefix | SpaceTradersPy.py:918-920 | Appending one item appends its record or raises its exception. |
| KeyWalk.HydrateAllFailsAt | SpaceTradersPy.py:918-920 | If the items before i hydrate and item i raises, the whole list raises item i's exception. |
| Records.WaypointWalkByLastWrite | SpaceTradersPy.py:929-953 | The Waypoint constructor's loop ends in the record whose attributes each hold the value of the last key that writes them. |
| Records.WaypointOf | SpaceTradersPy.py:929-953 | A non-object raises AttributeError (no `keys()`). An object always hydrates, into its last-write record. |
| Records.WaypointSectorIsConstant | SpaceTradersPy.py:930 | `sector` is "X1" whatever the input. |
| Records.WaypointStepSkips | SpaceTradersPy.py:952-953 | A key outside the matched ones leaves the Waypoint unchanged. |
| Records.WaypointIgnoresUnknownKey | SpaceTradersPy.py:952-953 | Inserting an unknown key anywhere in the object gives the same Waypoint. |
| Records.WaypointTypeIsLaterOf | SpaceTradersPy.py:938-951 | `waypoint_type` is the value of the later of `waypoint_type`/`chart`. |
| Records.WaypointAttributesSetIffPresent | SpaceTradersPy.py:932-951 | Each attribute is set exactly when a key that writes it is present. |
| Records.RouteOf | SpaceTradersPy.py:892-895 | A route hydrates exactly when it has `destination` and `departure` entries that are objects. The two Waypoints are hydrated from those entries. |
| Records.NavWalkByLastWrite | SpaceTradersPy.py:886-899 | The ShipNav loop succeeds exactly when every `route` entry hydrates, and then ends in the last-write record. |
| Records.NavOf | SpaceTradersPy.py:885-899 | A non-object raises AttributeError. An object hydrates exactly when all its routes do, into the last-write record. |
| Records.NavStepSkips | SpaceTradersPy.py:887-899 | An unmatched key leaves the ShipNav unchanged. |
| Records.NavIgnoresUnknownKey | SpaceTradersPy.py:887-899 | Inserting an unknown key anywhere gives the same ShipNav or the same exception. |
| Records.NavStatusIsLaterOf | SpaceTradersPy.py:896-899 | `status` is the value of the later of `status`/`flightMode`. |
| Records.NavRouteHydratesEnds | SpaceTradersPy.py:892-895 | With a `route` entry, `route` holds the last one, and `destination`/`departure` are its two ends hydrated as Waypoints. |
| Records.NavWithoutRoute | SpaceTradersPy.py:892-895 | Without `route`, the route and its two ends are unset. |
| Records.ShipPlainStepKeepsNav | SpaceTradersPy.py:854-873 | A key that does not write `nav` commutes with whatever `nav` holds. |
| Records.ShipWalkByLastWrite | SpaceTradersPy.py:852-875 | The Ship loop succeeds exactly when every `nav` entry hydrates, and ends in the last-write record. |
| Records.ShipOf | SpaceTradersPy.py:846-875 | A falsy symbol raises ShipSymbolNotDefined before the keys are read. A non-object raises AttributeError. Otherwise the Ship hydrates exactly when its `nav` entries do, into the last-write record. |
| Records.ShipStepSkips | SpaceTradersPy.py:874-875 | An unmatched key leaves the Ship unchanged. |
| Records.ShipIgnoresUnknownKey | SpaceTradersPy.py:874-875 | Inserting an unknown key anywhere gives the same Ship or the same exception. |
| Records.ShipNavIsLastWriter | SpaceTradersPy.py:856-871 | `nav` holds the value of the last of `nav`/`reactor`/`cargo`. After `nav` it is hydrated as a ShipNav; after the others it is the raw value. |
| Records.ShipAttributesSetIffPresent | SpaceTradersPy.py:847-873 | `symbol` is the argument, and each attribute is set exactly when a key that writes it is present. |
| Records.WaypointListOf | SpaceTradersPy.py:916-920 | The `waypoints` list hydrates exactly when the value iterates into objects. It then has one Waypoint per item, in order. |
| Records.SystemStepByLastWrite | SpaceTradersPy.py:904-922 | One more key moves the last-write System record by exactly that key's step. |
| Records.SystemWalkByLastWrite | SpaceTradersPy.py:904-922 | The System loop succeeds exactly when every `waypoints` entry hydrates, and ends in the last-write record. |
| Records.SystemOf | SpaceTradersPy.py:903-922 | A non-object raises AttributeError. An object hydrates exactly when its waypoint lists do, into the last-write record. |
| Records.SystemStepSkips | SpaceTradersPy.py:905-922 | An unmatched key leaves the System unchanged. |
| Records.SystemIgnoresUnknownKey | SpaceTradersPy.py:905-922 | Inserting an unknown key anywhere gives the same System or the same exception. |
| Records.SystemXIsLaterOf | SpaceTradersPy.py:912-915 | `x` is the value of the later of `x`/`y`, and `y` is never set. |
| Records.SystemWaypointsFollowInput | SpaceTradersPy.py:916-920 | `waypoints` has one Waypoint per item of the last `waypoints` entry, in the same order, each hydrated from its item. |
| Hydration.Waypoint.Assign | SpaceTradersPy.py:933-953 | One loop body: the new record is the step of the old record by the key. |
| Hydration.Waypoint.FromJson | SpaceTradersPy.py:929-953 | The loop builds a fresh Waypoint equal to the last-write record, or raises AttributeError exactly when the input is not an object. |
| Hydration.Waypoint.AllFromJson | SpaceTradersPy.py:917-920 | The append loop succeeds exactly when `HydrateAll` does, with the same exception. It builds fresh Waypoints whose records are `HydrateAll`'s, in order. |
| Hydration.WaypointRecords | SpaceTradersPy.py:917-920 | Same length as the objects, and element i is object i's record. |
| Hydration.ShipNav.RouteFromJson | SpaceTradersPy.py:892-895 | Succeeds exactly when `RouteOf` does, with the same exception, and builds two fresh Waypoints holding `RouteOf`'s records. |
| Hydration.ShipNav.Assign | SpaceTradersPy.py:887-899 | One loop body equals `NavStep` on the old record, or raises its exception. New waypoints are fresh. |
| Hydration.ShipNav.AssignRoute | SpaceTradersPy.py:892-895 | The `route` arm equals the route step, or raises its exception. |
| Hydration.ShipNav.AssignPlain | SpaceTradersPy.py:888-899 | The plain arms equal the plain step. |
| Hydration.ShipNav.FromJson | SpaceTradersPy.py:885-899 | Succeeds exactly when `NavOf` does, with the same exception. The new ShipNav and its Waypoints are fresh, and its record is the last-write record. |
| Hydration.Ship.AssignNav | SpaceTradersPy.py:856-857 | The `nav` arm equals the step, or raises and leaves `nav` unchanged. |
| Hydration.Ship.AssignPlain | SpaceTradersPy.py:854-873 | The other arms equal the plain step on the attributes other than `nav`. |
| Hydration.Ship.FromJson | SpaceTradersPy.py:846-875 | Succeeds exactly when `ShipOf` does, with the same exception. The new Ship and its nested objects are fresh, and its record is the last-write record. |
| Hydration.System.Assign | SpaceTradersPy.py:905-922 | One loop body equals `SystemStep`, or raises its exception. |
| Hydration.System.AssignWaypoints | SpaceTradersPy.py:916-920 | The `waypoints` arm equals its step, or raises its exception. |
| Hydration.System.AssignPlain | SpaceTradersPy.py:906-922 | The plain arms equal the plain step. |
| Hydration.System.FromJson | SpaceTradersPy.py:903-922 | Succeeds exactly when `SystemOf` does, with the same exception. The new System and its Waypoints are fresh, and its record is the last-write record. |
| Symbols.Split | SpaceTradersPy.py:26 | `s.split("-")` has at least one piece, and exactly one (s itself) exactly when s has no dash. |
| Symbols.SplitCons | SpaceTradersPy.py:26 | A dash-free head followed by a dash splits off as the first piece. |
| Symbols.SplitPiecesDashFree | SpaceTradersPy.py:26 | No piece contains a dash. |
| Symbols.JoinSplit | SpaceTradersPy.py:26 | Rejoining the pieces with dashes gives back the string. |
| Symbols.SplitJoin | SpaceTradersPy.py:26 | Splitting a join of dash-free pieces gives back the pieces. |
| Symbols.HeadquartersSystem | SpaceTradersPy.py:25-27 | Raises IndexError (no second piece) exactly when the symbol has no dash. |
| Symbols.SystemOfJoinedSymbol | SpaceTradersPy.py:25-27 | For a symbol joined from two or more dash-free parts, the system is the first two parts joined by a dash. |
| Symbols.SystemIsPrefix | SpaceTradersPy.py:25-27 | The system is the whole symbol or a prefix of it followed by a dash. |
| Symbols.SystemOfThreePieces | SpaceTradersPy.py:65-67 | The system of `A-B-C` is `A-B`. |
| Symbols.ExampleSystem | SpaceTradersPy.py:65-67 | The system of "X1-DF55-20250Z" is "X1-DF55". |
| Symbols.HeadquartersOf | SpaceTradersPy.py:64-67 | A headquarters that is not a string raises AttributeError (no `split`). Otherwise the result is its system. |
| Paging.ClampLimit | SpaceTradersPy.py:226-229 | The limit ends in [1, 20]. An in-range limit passes through, and the result is the closest allowed limit. |
| Paging.ClampPage | SpaceTradersPy.py:230-231 | The page ends at 1 or more. A valid page passes through, and the result is the closest allowed page. |
| Paging.Clamp | SpaceTradersPy.py:226-231 | The sequential reassignments give the clamped limit and page, both in range. |
| Paging.ClampIdempotent | SpaceTradersPy.py:101-106 | Clamping twice gives the same result as clamping once. |
| Paging.DefaultsPassThrough | SpaceTradersPy.py:223-231 | The default `limit=10, page=1` lies inside the clamped range and is sent unchanged. |
| Paging.ClampSaturates | SpaceTradersPy.py:226-229 | A limit of 20 or more becomes 20, and one of 1 or less becomes 1. |
| Dispatch.Route | SpaceTradersPy.py:282-295 | Unwrap exactly on 200, TokenError exactly on 401, ResourceNotFound exactly on 404 where checked, and the fallback exactly otherwise. |
| Dispatch.RegisterRoute | SpaceTradersPy.py:59-81 | Unwrap exactly on 200, AgentSymbolTaken(callsign) exactly on 409, TokenError exactly on 401, and the fallback exactly otherwise. |
| Dispatch.Outcome | SpaceTradersPy.py:282-295 | On 200, the 200 arm's value or exception. On 401/404, the exception. On the fallback, the echoed body or `None`. |
| Dispatch.ErrorAfter | SpaceTradersPy.py:293-294 | `error` changes only on the fallback arm, and then becomes the body. |
| Dispatch.Data | SpaceTradersPy.py:90-91 | `body["data"]`: TypeError on a non-object. On an object it succeeds exactly when a `data` key occurs, giving the value of the last such entry; otherwise KeyError("data"). |
| Dispatch.WaypointInBody | SpaceTradersPy.py:789-790 | Succeeds exactly when `data` is an object, and gives its last-write Waypoint. |
| Dispatch.ShipWithOwnSymbol | SpaceTradersPy.py:241-242 | Raises the lookup's exception when `symbol` is missing, then ShipSymbolNotDefined when it is falsy. Succeeds exactly when the item is an object with a truthy `symbol` whose `nav` entries hydrate, giving the last-write Ship under that symbol. |
| Dispatch.ShipInBody | SpaceTradersPy.py:283-288 | The exception of `["data"]`, then of `["symbol"]`, then ShipSymbolNotDefined, in that order. Succeeds exactly when `data` is an object with a truthy `symbol` whose `nav` entries hydrate, giving the last-write Ship under that symbol. |
| Dispatch.ShipAloneIsListedAlike | SpaceTradersPy.py:241-242 | The ship `get_ship` builds from a body is the one `list_ships` answers for a listing of that object alone; both raise the same exception. |
| Dispatch.ShipListInBody | SpaceTradersPy.py:238-244 | A list of ships has one entry per item of `data`. |
| Dispatch.SystemListInBody | SpaceTradersPy.py:723-729 | A list of systems has one entry per item of `data`. |
| Dispatch.PurchaseInBody | SpaceTradersPy.py:262-269 | Succeeds exactly when the top-level `ship` builds a Ship with its own symbol and the top-level `agent` holds `credits`, giving that Ship and those credits. Otherwise it raises the first failure in source order: `["ship"]`, the Ship, `["agent"]`, `["credits"]`. |
| Dispatch.ContractAction | SpaceTradersPy.py:145-152 | 1 exactly on 200, 0 exactly on the fallback, and the dispatch exception exactly on 401/404. |
| Dispatch.NotFoundArmIsTheOnlyDifference | SpaceTradersPy.py:89-96 | `get_agent`'s dispatch differs from the others only on 404, which falls back there. |
| Dispatch.RegisterRouteExtendsRoute | SpaceTradersPy.py:59-81 | `register_agent` dispatches like `get_agent`, except that 409 raises AgentSymbolTaken. |
| Dispatch.ErrorWrittenOnlyOnFallback | SpaceTradersPy.py:282-294 | Off the fallback arm, and in particular on 200, `error` is left untouched. |
| Dispatch.ShipListFollowsData | SpaceTradersPy.py:240-244 | `list_ships` answers one Ship per item of `data`, in order, each built from its item and carrying that item's `symbol`. |
| Dispatch.ShipListFailsAtFirstBadItem | SpaceTradersPy.py:240-244 | The listing raises exactly when some item fails, and with the exception of the first failing item. |
| Dispatch.TwoShips | SpaceTradersPy.py:240-244 | A `data` array of two ship objects gives those two Ships, in order. |
| Dispatch.SystemListFollowsData | SpaceTradersPy.py:726-729 | `list_systems` answers one System per item of `data`, in order, each the item's last-write record. |
| Dispatch.PurchaseReadsTopLevelKeys | SpaceTradersPy.py:262-265 | A body that wraps the ship in `data` raises KeyError("ship"). |
| Registration.WaypointPathLayout | SpaceTradersPy.py:785 | The system sits right after "systems/" and is followed by a slash, and the waypoint sits right before the trailing slash. |
| Registration.WaypointPathNamesItsArguments | SpaceTradersPy.py:785 | When the system symbols have no slash, two lookups with the same path have the same system and the same waypoint. |
| Registration.StoredAsWritten | SpaceTradersPy.py:72 | `Waypoint(...)` of an already-built Waypoint raises AttributeError. An echoed error object is hydrated as a Waypoint. |
| Registration.Register | SpaceTradersPy.py:49-81 | Success only on 200, and then with a lookup sent. A non-200 sends no lookup and raises. A 200 without usable `data` raises that KeyError or TypeError with the session unchanged and no lookup sent. |
| Registration.Enroll | SpaceTradersPy.py:62-71 | The token is stored first and the callsign second; a missing `token` raises with nothing stored, a missing `symbol` with only the token stored. The headquarters lookup is sent exactly when token, symbol and a headquarters with a system were read, and it requests the path of that system and that waypoint; with no lookup sent, the headquarters, faction, credits and `error` are untouched and the registration fails. |
| Registration.Settle | SpaceTradersPy.py:68-74 | After the lookup, token and callsign are kept and `error` is updated as the lookup's routing says. A raising lookup stores nothing more. Success iff the lookup, the store, `startingFaction` and `credits` all succeed, and then the session holds the stored headquarters, the faction and the credits. |
| Registration.RegistrationAsWritten | SpaceTradersPy.py:49-81 | As written, a registration can succeed only when the headquarters lookup did not answer 200. |
| Registration.CorrectedRegistration | SpaceTradersPy.py:49-81 | A successful registration answered 200 and sent the lookup. |
| Registration.CorrectedRegistrationCompletes | SpaceTradersPy.py:59-74 | For a well-formed agent whose lookup answers 200, the session holds the token, callsign, headquarters Waypoint, faction and credits, and `error` is kept. The lookup path is built from the system of the headquarters symbol. |
| Registration.CorrectedRegistrationSucceeds | SpaceTradersPy.py:49-81 | The corrected registration succeeds exactly when the answer is 200, `data` holds token, symbol, a headquarters with a system, faction and credits, and the lookup does not raise. Then the lookup requests that headquarters in its system, and the session holds every attribute read, the lookup's answer as headquarters, and `error` as the lookup's routing leaves it. |
| Registration.AsWrittenSucceedsOnlyOnFallback | SpaceTradersPy.py:49-81 | As written, a registration that succeeds took the lookup's fallback arm with a dict body, stored that body as `error` and its hydration as the headquarters Waypoint. |
| Registration.AsWrittenRaisesAfterLookup | SpaceTradersPy.py:62-72 | As written, the same registration raises AttributeError after the lookup, with only the token and callsign stored. |
| Registration.RefusedRegistrationStoresOnlyError | SpaceTradersPy.py:75-81 | A refused registration sends no lookup: 409 raises AgentSymbolTaken and 401 raises TokenError, leaving the session unchanged; any other code stores the body in `error` and raises CouldNotRegisterAgent. Both versions agree here. |
| Registration.ExampleHeadquarters | SpaceTradersPy.py:65-67 | The system of "X1-AB-1" is "X1-AB". |
| Registration.ExamplePath | SpaceTradersPy.py:785 | The lookup path for X1-AB-1 is "systems/X1-AB/waypoints/X1-AB-1/". |
| Registration.ExampleAgent | SpaceTradersPy.py:59-74 | The TESTBOT answer is a well-formed agent. |
| Registration.ExampleRegistration | SpaceTradersPy.py:59-74 | The corrected registration of TESTBOT stores 1000 credits and looks up "systems/X1-AB/waypoints/X1-AB-1/". As written it raises AttributeError and the credits stay unset. |
| Client.SpaceTrader.Unregistered | SpaceTradersPy.py:6-13 | A new client has every session attribute unset. |
| Client.SpaceTrader.GetAgent | SpaceTradersPy.py:84-96 | Answers `Outcome` without the 404 arm, and `error` becomes the body only on the fallback. |
| Client.SpaceTrader.AcceptContract | SpaceTradersPy.py:141-152 | Answers 1 or 0 or raises, as `ContractAction`, and changes nothing. |
| Client.SpaceTrader.GetWaypoint | SpaceTradersPy.py:784-797 | Raises as `Outcome`. On 200 it builds a fresh Waypoint holding the `data` record; on the fallback it echoes the body and stores it in `error`. |
| Client.SpaceTrader.ShipFromItem | SpaceTradersPy.py:241-242 | Builds a fresh Ship named by the item's `symbol`, or raises as `ShipWithOwnSymbol`. |
| Client.SpaceTrader.ShipsFromItems | SpaceTradersPy.py:240-244 | The append loop succeeds exactly when `HydrateAll` does, with the same exception, giving fresh Ships whose records are `HydrateAll`'s, in order. |
| Client.SpaceTrader.ListShips | SpaceTradersPy.py:223-251 | With `limit` and `page` defaulting to 10 and 1, sends the clamped query and answers `Outcome`: on 200 one fresh Ship per item of `data`, otherwise the exception or the echoed body. `error` changes only on the fallback. |
| Client.SpaceTrader.SystemsFromItems | SpaceTradersPy.py:725-729 | The append loop succeeds exactly when `HydrateAll` over `SystemOf` does, giving fresh Systems with those records, in order. |
| Client.SpaceTrader.ListSystems | SpaceTradersPy.py:708-736 | With `limit` and `page` defaulting to 10 and 1, sends the clamped query and answers `Outcome` with `None` on the fallback. On 200 it gives one fresh System per item. |
| Client.SpaceTrader.GetShip | SpaceTradersPy.py:278-295 | Answers `Outcome` with `None` on the fallback. On 200 it gives a fresh Ship from `data` named by its own `symbol`. |
| Client.SpaceTrader.PurchaseShip | SpaceTradersPy.py:253-276 | Answers `Outcome`. `credits` becomes `agent["credits"]` only when the 200 arm succeeds, and `error` changes only on the fallback. |
| Client.SpaceTrader.RegisterAgent | SpaceTradersPy.py:49-81 | The new session, the lookup sent and the exception are those of `CorrectedRegistration` from the old session. A new headquarters Waypoint is fresh. |
| Client.SpaceTrader.Enroll | SpaceTradersPy.py:62-71 | The 200 arm before the lookup, as `Registration.Enroll`. |
| Client.SpaceTrader.Settle | SpaceTradersPy.py:68-74 | The lookup and the attributes stored after it, as `Registration.Settle`. |

## Left out

- HTTP is not modelled. `requests.get`/`post`, `r.json()`, `json.dumps`
  and the `print` at line 61 are outside the model, and every endpoint
  takes the server's `(status, body)` as an input.
- URL and header building are not modelled. The one exception is the
  headquarters lookup path (`Registration.WaypointPath`), because it is
  derived from the headquarters symbol.
- The token-driven bootstrap in `__init__` (lines 15-42) sends requests,
  and `get_status` (lines 44-47) only forwards an answer. Neither is
  modelled. From `__init__`, only the headquarters split and the "store
  the lookup's answer" behaviour (`Registration.StoredAsAnswered`) are
  kept. `NoCallsign` belongs to that constructor and is left out with it.
- Class-level defaults (lines 6-13) are modelled as per-instance fields
  that start unset (`Client.SpaceTrader.Unregistered`). `BASE_URL` and
  `header` are left out.
- `__str__` methods and exception message texts are not modelled.
  Exceptions are the tags of `JsonValues.Failure`. `WaypointValueNotSet`
  is never raised.
- The endpoints outside the core share the dispatch modelled here and are
  not modelled one by one:
  - `list_contracts`, `get_contract` and `list_factions` follow
    `Dispatch.Outcome` with the body echoed;
  - `get_faction`, `get_system` and `list_waypoints_in_system` follow it
    too;
  - `deliver_cargo_to_contract` and `fulfill_contract` are
    `Dispatch.ContractAction`;
  - the ship actions (lines 297-706) and the market, shipyard and jump
    gate lookups (lines 799-843) also follow `Dispatch.Outcome`.
- The `faction` argument of `register_agent` and the request payloads only
  shape the request, so they are not modelled.
- JSON numbers are integers. Floats, and Python's truthiness of `0.0`, are
  not modelled.
- A Python dict has unique keys. The model's objects allow repeated keys,
  and every statement holds for the unique-key case as well.
- Dispatch.ShipListInBody: its contract states only the length. The
  per-item contents are in `Dispatch.ShipListFollowsData`.
- Dispatch.SystemListInBody: its contract states only the length. The
  per-item contents are in `Dispatch.SystemListFollowsData`.
- `Waypoint` performs no symbol check, and `Ship` raises
  `ShipSymbolNotDefined` for a falsy symbol. The model follows the code
  here, including the exception's name.
- `purchase_ship` reads `ship` and `agent` at the top level of the body
  (lines 262-268), not under `data` as the other endpoints do. The model
  follows the code; see `Dispatch.PurchaseReadsTopLevelKeys`.
- The waypoint lookup URL ends in a slash (line 785). The model keeps it.

## Findings

| source | as written | input that shows it | evidently intended | confidence | as-written member | corrected member |
|---|---|---|---|---|---|---|
| SpaceTradersPy.py:68-72 | `get_waypoint` already answers a hydrated `Waypoint` on 200, and `register_agent` wraps it once more in `Waypoint(...)`. That calls `keys()` on a Waypoint and raises AttributeError after the token and callsign are stored, so `startingFaction` and `credits` are never set. | Registration of TESTBOT answering 200 with headquarters "X1-AB-1", whose lookup answers 200 (`Registration.ExampleRegistration`) | Store the lookup's answer as it is, as the token constructor does at lines 28-31 | not executed | Registration.AsWrittenRaisesAfterLookup | Registration.CorrectedRegistrationCompletes |
