/** What the record constructors `Waypoint`, `ShipNav`, `Ship` and `System`
    compute, as values. Each constructor walks the keys of its dict in order
    (module KeyWalk); a recognised key sets one attribute, an unknown key is
    skipped. For each record a reference definition states the outcome
    without the walk: every attribute holds the value of the LAST entry whose
    key writes it, which is how the write collisions of the source resolve. */
module Records {
  import opened Wrappers
  import opened JsonValues
  import opened KeyWalk

  // ---------------------------------------------------------------------
  // Waypoint

  datatype WaypointRecord = WaypointRecord(
    sector: string,
    symbol: Option<Json>,
    systemSymbol: Option<Json>,
    waypointType: Option<Json>,
    x: Option<Json>,
    y: Option<Json>,
    orbitals: Option<Json>,
    faction: Option<Json>,
    traits: Option<Json>)

  /** The keys a Waypoint recognises; "chart" writes the waypoint type. */
  const WaypointKeys: set<string> :=
    {"symbol", "systemSymbol", "waypoint_type", "x", "y", "orbitals", "faction", "traits", "chart"}

  /** A Waypoint before its first key: the sector is set unconditionally. */
  const UnsetWaypoint := WaypointRecord("X1", None, None, None, None, None, None, None, None)

  function WaypointStep(w: WaypointRecord, key: string, value: Json): Result<WaypointRecord, Failure> {
    Success(
      match key
      case "symbol" => w.(symbol := Some(value))
      case "systemSymbol" => w.(systemSymbol := Some(value))
      case "waypoint_type" => w.(waypointType := Some(value))
      case "x" => w.(x := Some(value))
      case "y" => w.(y := Some(value))
      case "orbitals" => w.(orbitals := Some(value))
      case "faction" => w.(faction := Some(value))
      case "traits" => w.(traits := Some(value))
      case "chart" => w.(waypointType := Some(value))
      case _ => w)
  }

  /** Reference definition of a hydrated Waypoint. */
  function WaypointByLastWrite(f: Fields): WaypointRecord {
    WaypointRecord(
      "X1",
      Written(f, {"symbol"}),
      Written(f, {"systemSymbol"}),
      Written(f, {"waypoint_type", "chart"}),
      Written(f, {"x"}),
      Written(f, {"y"}),
      Written(f, {"orbitals"}),
      Written(f, {"faction"}),
      Written(f, {"traits"}))
  }

  lemma {:induction false} WaypointWalkByLastWrite(f: Fields)
    ensures Walk(UnsetWaypoint, WaypointStep, f) == Success(WaypointByLastWrite(f))
    decreases |f|
  {
    if f != [] {
      var key := f[|f| - 1].0;
      WaypointWalkByLastWrite(f[..|f| - 1]);
      if key in {"waypoint_type", "chart"} {
      } else if key in {"symbol", "systemSymbol", "x", "y"} {
      } else if key in {"orbitals", "faction", "traits"} {
      } else {
        assert key !in WaypointKeys;
      }
    }
  }

  /** `Waypoint(info)`: a dict hydrates to the reference record; anything
      else has no `keys()` and raises AttributeError. */
  function WaypointOf(info: Json): (r: Result<WaypointRecord, Failure>)
    ensures info.JObj? ==> r == Success(WaypointByLastWrite(info.fields))
    ensures !info.JObj? ==> r == Failure(AttributeError)
  {
    if info.JObj? then
      WaypointWalkByLastWrite(info.fields);
      Walk(UnsetWaypoint, WaypointStep, info.fields)
    else
      Failure(AttributeError)
  }

  /** Whatever the input, a hydrated Waypoint lies in sector "X1". */
  lemma WaypointSectorIsConstant(info: Json)
    requires WaypointOf(info).Success?
    ensures WaypointOf(info).value.sector == "X1"
  {
  }

  /** A key the Waypoint does not recognise leaves the record as it is. */
  lemma WaypointStepSkips(w: WaypointRecord, key: string, value: Json)
    requires key !in WaypointKeys
    ensures WaypointStep(w, key, value) == Success(w)
  {
  }

  /** A key the Waypoint does not recognise can be removed from the dict
      without changing the Waypoint. */
  lemma WaypointIgnoresUnknownKey(a: Fields, k: string, v: Json, b: Fields)
    requires k !in WaypointKeys
    ensures WaypointOf(JObj(a + [(k, v)] + b)) == WaypointOf(JObj(a + b))
  {
    forall w ensures WaypointStep(w, k, v) == Success(w) {
      WaypointStepSkips(w, k, v);
    }
    WalkIgnores(UnsetWaypoint, WaypointStep, a, (k, v), b);
  }

  /** `waypoint_type` holds the value of the later of the "waypoint_type"
      and "chart" entries. */
  lemma WaypointTypeIsLaterOf(f: Fields, i: nat)
    requires i < |f| && f[i].0 in {"waypoint_type", "chart"}
    requires forall j :: i < j < |f| ==> f[j].0 !in {"waypoint_type", "chart"}
    ensures WaypointOf(JObj(f)) == Success(WaypointOf(JObj(f)).value.(waypointType := Some(f[i].1)))
  {
    LastWriteWins(f, {"waypoint_type", "chart"}, i);
  }

  /** An attribute of a Waypoint is set exactly when a key that writes it
      is present; absent keys leave their attributes unset. */
  lemma WaypointAttributesSetIffPresent(f: Fields)
    ensures var w := WaypointOf(JObj(f)).value;
      && (w.symbol.Some? <==> Mentions(f, {"symbol"}))
      && (w.systemSymbol.Some? <==> Mentions(f, {"systemSymbol"}))
      && (w.waypointType.Some? <==> Mentions(f, {"waypoint_type", "chart"}))
      && (w.x.Some? <==> Mentions(f, {"x"}))
      && (w.y.Some? <==> Mentions(f, {"y"}))
      && (w.orbitals.Some? <==> Mentions(f, {"orbitals"}))
      && (w.faction.Some? <==> Mentions(f, {"faction"}))
      && (w.traits.Some? <==> Mentions(f, {"traits"}))
  {
    WrittenIffMentioned(f, {"symbol"});
    WrittenIffMentioned(f, {"systemSymbol"});
    WrittenIffMentioned(f, {"waypoint_type", "chart"});
    WrittenIffMentioned(f, {"x"});
    WrittenIffMentioned(f, {"y"});
    WrittenIffMentioned(f, {"orbitals"});
    WrittenIffMentioned(f, {"faction"});
    WrittenIffMentioned(f, {"traits"});
  }

  // ---------------------------------------------------------------------
  // ShipNav

  datatype NavRecord = NavRecord(
    systemSymbol: Option<Json>,
    waypointSymbol: Option<Json>,
    route: Option<Json>,
    destination: Option<WaypointRecord>,
    departure: Option<WaypointRecord>,
    status: Option<Json>)

  /** The keys a ShipNav recognises; "flightMode" writes the status. */
  const NavKeys: set<string> := {"systemSymbol", "waypointSymbol", "route", "status", "flightMode"}

  const UnsetNav := NavRecord(None, None, None, None, None, None)

  /** The two Waypoints a route dict holds: its destination is hydrated
      first, then its departure. */
  function RouteOf(route: Json): (r: Result<(WaypointRecord, WaypointRecord), Failure>)
    ensures r.Success? <==>
      && Subscript(route, "destination").Success? && Subscript(route, "destination").value.JObj?
      && Subscript(route, "departure").Success? && Subscript(route, "departure").value.JObj?
    ensures r.Success? ==> WaypointOf(Subscript(route, "destination").value) == Success(r.value.0)
    ensures r.Success? ==> WaypointOf(Subscript(route, "departure").value) == Success(r.value.1)
  {
    var destination :- Subscript(route, "destination");
    var toward :- WaypointOf(destination);
    var departure :- Subscript(route, "departure");
    var from :- WaypointOf(departure);
    Success((toward, from))
  }

  /** One key of `ShipNav(info)`: "route" hydrates its two ends, any
      other key is a plain assignment or nothing. */
  function NavStep(n: NavRecord, key: string, value: Json): Result<NavRecord, Failure> {
    if key == "route" then NavRouteStep(n, value) else Success(NavPlainStep(n, key, value))
  }

  /** "route": keep the route and hydrate its destination and departure. */
  function NavRouteStep(n: NavRecord, value: Json): Result<NavRecord, Failure> {
    match RouteOf(value)
    case Failure(e) => Failure(e)
    case Success(ends) =>
      Success(n.(route := Some(value), destination := Some(ends.0), departure := Some(ends.1)))
  }

  /** The keys other than "route"; "flightMode" writes the status. */
  function NavPlainStep(n: NavRecord, key: string, value: Json): NavRecord {
    match key
    case "systemSymbol" => n.(systemSymbol := Some(value))
    case "waypointSymbol" => n.(waypointSymbol := Some(value))
    case "status" => n.(status := Some(value))
    case "flightMode" => n.(status := Some(value))
    case _ => n
  }

  /** Every "route" entry of the dict holds a hydratable route. */
  predicate RoutesHydrate(f: Fields) {
    forall i :: 0 <= i < |f| && f[i].0 == "route" ==> RouteOf(f[i].1).Success?
  }

  /** Reference definition of a hydrated ShipNav. */
  function NavByLastWrite(f: Fields): NavRecord
    requires RoutesHydrate(f)
  {
    LastEntryIsLastWrite(f, {"route"});
    var route := Written(f, {"route"});
    NavRecord(
      Written(f, {"systemSymbol"}),
      Written(f, {"waypointSymbol"}),
      route,
      if route.Some? then Some(RouteOf(route.value).value.0) else None,
      if route.Some? then Some(RouteOf(route.value).value.1) else None,
      Written(f, {"status", "flightMode"}))
  }

  lemma {:induction false} NavWalkByLastWrite(f: Fields)
    ensures Walk(UnsetNav, NavStep, f).Success? <==> RoutesHydrate(f)
    ensures RoutesHydrate(f) ==> Walk(UnsetNav, NavStep, f) == Success(NavByLastWrite(f))
    decreases |f|
  {
    if f != [] {
      var p, e := f[..|f| - 1], f[|f| - 1];
      NavWalkByLastWrite(p);
      if RoutesHydrate(f) {
        assert RoutesHydrate(p) by {
          forall i | 0 <= i < |p| && p[i].0 == "route" ensures RouteOf(p[i].1).Success? {
            assert p[i] == f[i];
          }
        }
      } else if RoutesHydrate(p) {
        assert e.0 == "route" && RouteOf(e.1).Failure?;
      }
    }
  }

  /** `ShipNav(info)`. */
  function NavOf(info: Json): (r: Result<NavRecord, Failure>)
    ensures !info.JObj? ==> r == Failure(AttributeError)
    ensures info.JObj? ==> (r.Success? <==> RoutesHydrate(info.fields))
    ensures r.Success? ==> r.value == NavByLastWrite(info.fields)
  {
    if info.JObj? then
      NavWalkByLastWrite(info.fields);
      Walk(UnsetNav, NavStep, info.fields)
    else
      Failure(AttributeError)
  }

  /** A key the ShipNav does not recognise leaves the record as it is. */
  lemma NavStepSkips(n: NavRecord, key: string, value: Json)
    requires key !in NavKeys
    ensures NavStep(n, key, value) == Success(n)
  {
  }

  /** A key the ShipNav does not recognise can be removed from the dict
      without changing the outcome. */
  lemma NavIgnoresUnknownKey(a: Fields, k: string, v: Json, b: Fields)
    requires k !in NavKeys
    ensures NavOf(JObj(a + [(k, v)] + b)) == NavOf(JObj(a + b))
  {
    forall n ensures NavStep(n, k, v) == Success(n) {
      NavStepSkips(n, k, v);
    }
    WalkIgnores(UnsetNav, NavStep, a, (k, v), b);
  }

  /** `status` holds the value of the later of the "status" and
      "flightMode" entries. */
  lemma NavStatusIsLaterOf(f: Fields, i: nat)
    requires NavOf(JObj(f)).Success?
    requires i < |f| && f[i].0 in {"status", "flightMode"}
    requires forall j :: i < j < |f| ==> f[j].0 !in {"status", "flightMode"}
    ensures NavOf(JObj(f)).value.status == Some(f[i].1)
  {
    LastWriteWins(f, {"status", "flightMode"}, i);
  }

  /** The last "route" entry is kept as `route`, and its "destination" and
      "departure" are hydrated as Waypoints. */
  lemma NavRouteHydratesEnds(f: Fields, i: nat)
    requires NavOf(JObj(f)).Success?
    requires i < |f| && f[i].0 == "route"
    requires forall j :: i < j < |f| ==> f[j].0 != "route"
    ensures var n := NavOf(JObj(f)).value;
      && n.route == Some(f[i].1)
      && n.destination == Some(WaypointOf(Subscript(f[i].1, "destination").value).value)
      && n.departure == Some(WaypointOf(Subscript(f[i].1, "departure").value).value)
  {
    LastWriteWins(f, {"route"}, i);
    assert RouteOf(f[i].1).Success?;
  }

  /** Without a "route" key a ShipNav has neither route nor ends. */
  lemma NavWithoutRoute(f: Fields)
    requires NavOf(JObj(f)).Success?
    requires !Mentions(f, {"route"})
    ensures var n := NavOf(JObj(f)).value;
      n.route == None && n.destination == None && n.departure == None
  {
    WrittenIffMentioned(f, {"route"});
  }

  // ---------------------------------------------------------------------
  // Ship

  /** What the `nav` attribute of a Ship holds: a hydrated ShipNav (written
      by "nav") or a raw value (written by "reactor" or "cargo"). */
  datatype NavSlot = HydratedNav(nav: NavRecord) | RawNav(raw: Json)

  datatype ShipRecord = ShipRecord(
    symbol: Json,
    registration: Option<Json>,
    nav: Option<NavSlot>,
    crew: Option<Json>,
    frame: Option<Json>,
    engine: Option<Json>,
    modules: Option<Json>,
    mounts: Option<Json>,
    fuel: Option<Json>)

  /** The keys a Ship recognises; "reactor" and "cargo" write `nav`. */
  const ShipKeys: set<string> :=
    {"registration", "nav", "crew", "frame", "reactor", "engine", "modules", "mounts", "cargo", "fuel"}

  /** The keys that write the `nav` attribute. */
  const NavWriters: set<string> := {"nav", "reactor", "cargo"}

  function UnsetShip(symbol: Json): ShipRecord {
    ShipRecord(symbol, None, None, None, None, None, None, None, None)
  }

  /** One key of `Ship(symbol, info)`: "nav" hydrates a ShipNav, any other
      key is a plain assignment or nothing. */
  function ShipStep(s: ShipRecord, key: string, value: Json): Result<ShipRecord, Failure> {
    if key == "nav" then ShipNavStep(s, value) else Success(ShipPlainStep(s, key, value))
  }

  /** "nav": hydrate the value as a ShipNav. */
  function ShipNavStep(s: ShipRecord, value: Json): Result<ShipRecord, Failure> {
    match NavOf(value)
    case Failure(e) => Failure(e)
    case Success(n) => Success(s.(nav := Some(HydratedNav(n))))
  }

  /** The keys other than "nav"; "reactor" and "cargo" write `nav`. */
  function ShipPlainStep(s: ShipRecord, key: string, value: Json): ShipRecord {
    match key
    case "registration" => s.(registration := Some(value))
    case "crew" => s.(crew := Some(value))
    case "frame" => s.(frame := Some(value))
    case "reactor" => s.(nav := Some(RawNav(value)))
    case "engine" => s.(engine := Some(value))
    case "modules" => s.(modules := Some(value))
    case "mounts" => s.(mounts := Some(value))
    case "cargo" => s.(nav := Some(RawNav(value)))
    case "fuel" => s.(fuel := Some(value))
    case _ => s
  }

  /** A key that does not write `nav` works the same whatever `nav` holds. */
  lemma ShipPlainStepKeepsNav(s: ShipRecord, key: string, value: Json, nav: Option<NavSlot>)
    requires key !in NavWriters
    ensures ShipPlainStep(s.(nav := nav), key, value) == ShipPlainStep(s, key, value).(nav := nav)
  {
  }

  /** Every "nav" entry of the dict holds a hydratable ShipNav. */
  predicate NavsHydrate(f: Fields) {
    forall i :: 0 <= i < |f| && f[i].0 == "nav" ==> NavOf(f[i].1).Success?
  }

  /** The `nav` attribute as the last of "nav", "reactor" and "cargo" leaves it. */
  function NavSlotByLastWrite(f: Fields): Option<NavSlot>
    requires NavsHydrate(f)
  {
    LastEntryIsLastWrite(f, NavWriters);
    match LastEntry(f, NavWriters)
    case None => None
    case Some(e) =>
      if e.0 == "nav" then Some(HydratedNav(NavOf(e.1).value)) else Some(RawNav(e.1))
  }

  /** Reference definition of a hydrated Ship. */
  function ShipByLastWrite(symbol: Json, f: Fields): ShipRecord
    requires NavsHydrate(f)
  {
    ShipRecord(
      symbol,
      Written(f, {"registration"}),
      NavSlotByLastWrite(f),
      Written(f, {"crew"}),
      Written(f, {"frame"}),
      Written(f, {"engine"}),
      Written(f, {"modules"}),
      Written(f, {"mounts"}),
      Written(f, {"fuel"}))
  }

  lemma {:induction false} ShipWalkByLastWrite(symbol: Json, f: Fields)
    ensures Walk(UnsetShip(symbol), ShipStep, f).Success? <==> NavsHydrate(f)
    ensures NavsHydrate(f) ==> Walk(UnsetShip(symbol), ShipStep, f) == Success(ShipByLastWrite(symbol, f))
    decreases |f|
  {
    if f != [] {
      var p, e := f[..|f| - 1], f[|f| - 1];
      ShipWalkByLastWrite(symbol, p);
      if NavsHydrate(f) {
        assert NavsHydrate(p) by {
          forall i | 0 <= i < |p| && p[i].0 == "nav" ensures NavOf(p[i].1).Success? {
            assert p[i] == f[i];
          }
        }
      } else if NavsHydrate(p) {
        assert e.0 == "nav" && NavOf(e.1).Failure?;
      }
      if e.0 in NavWriters {
      } else if e.0 in {"registration", "crew", "frame", "engine"} {
      } else if e.0 in {"modules", "mounts", "fuel"} {
      } else {
        assert e.0 !in ShipKeys;
      }
    }
  }

  /** `Ship(symbol, info)`: a falsy symbol raises ShipSymbolNotDefined
      before the dict is looked at; otherwise the symbol is kept as given. */
  function ShipOf(symbol: Json, info: Json): (r: Result<ShipRecord, Failure>)
    ensures !Truthy(symbol) ==> r == Failure(ShipSymbolNotDefined)
    ensures Truthy(symbol) && !info.JObj? ==> r == Failure(AttributeError)
    ensures Truthy(symbol) && info.JObj? ==> (r.Success? <==> NavsHydrate(info.fields))
    ensures r.Success? ==> r.value == ShipByLastWrite(symbol, info.fields)
  {
    if !Truthy(symbol) then
      Failure(ShipSymbolNotDefined)
    else if !info.JObj? then
      Failure(AttributeError)
    else
      ShipWalkByLastWrite(symbol, info.fields);
      Walk(UnsetShip(symbol), ShipStep, info.fields)
  }

  /** A key the Ship does not recognise leaves the record as it is. */
  lemma ShipStepSkips(s: ShipRecord, key: string, value: Json)
    requires key !in ShipKeys
    ensures ShipStep(s, key, value) == Success(s)
  {
  }

  /** A key the Ship does not recognise can be removed from the dict
      without changing the outcome. */
  lemma ShipIgnoresUnknownKey(symbol: Json, a: Fields, k: string, v: Json, b: Fields)
    requires k !in ShipKeys
    ensures ShipOf(symbol, JObj(a + [(k, v)] + b)) == ShipOf(symbol, JObj(a + b))
  {
    forall s ensures ShipStep(s, k, v) == Success(s) {
      ShipStepSkips(s, k, v);
    }
    WalkIgnores(UnsetShip(symbol), ShipStep, a, (k, v), b);
  }

  /** `nav` holds what the last of the "nav", "reactor" and "cargo" entries
      wrote: a hydrated ShipNav for "nav", the raw value otherwise. */
  lemma ShipNavIsLastWriter(symbol: Json, f: Fields, i: nat)
    requires ShipOf(symbol, JObj(f)).Success?
    requires i < |f| && f[i].0 in NavWriters
    requires forall j :: i < j < |f| ==> f[j].0 !in NavWriters
    ensures ShipOf(symbol, JObj(f)).value.nav ==
      Some(if f[i].0 == "nav" then HydratedNav(NavOf(f[i].1).value) else RawNav(f[i].1))
  {
    LastWriteWins(f, NavWriters, i);
  }

  /** A hydrated Ship keeps the symbol it was given, and each attribute is
      set exactly when a key that writes it is present. */
  lemma ShipAttributesSetIffPresent(symbol: Json, f: Fields)
    requires ShipOf(symbol, JObj(f)).Success?
    ensures var s := ShipOf(symbol, JObj(f)).value;
      && s.symbol == symbol
      && (s.registration.Some? <==> Mentions(f, {"registration"}))
      && (s.nav.Some? <==> Mentions(f, NavWriters))
      && (s.crew.Some? <==> Mentions(f, {"crew"}))
      && (s.frame.Some? <==> Mentions(f, {"frame"}))
      && (s.engine.Some? <==> Mentions(f, {"engine"}))
      && (s.modules.Some? <==> Mentions(f, {"modules"}))
      && (s.mounts.Some? <==> Mentions(f, {"mounts"}))
      && (s.fuel.Some? <==> Mentions(f, {"fuel"}))
  {
    WrittenIffMentioned(f, {"registration"});
    LastEntryIsLastWrite(f, NavWriters);
    WrittenIffMentioned(f, {"crew"});
    WrittenIffMentioned(f, {"frame"});
    WrittenIffMentioned(f, {"engine"});
    WrittenIffMentioned(f, {"modules"});
    WrittenIffMentioned(f, {"mounts"});
    WrittenIffMentioned(f, {"fuel"});
  }

  // ---------------------------------------------------------------------
  // System

  datatype SystemRecord = SystemRecord(
    symbol: Option<Json>,
    sectorSymbol: Option<Json>,
    systemType: Option<Json>,
    x: Option<Json>,
    y: Option<Json>,
    waypoints: Option<seq<WaypointRecord>>,
    factions: Option<Json>)

  /** The keys a System recognises; "y" writes `x`. */
  const SystemKeys: set<string> := {"symbol", "sectorSymbol", "type", "x", "y", "waypoints", "factions"}

  const UnsetSystem := SystemRecord(None, None, None, None, None, None, None)

  /** `for wp in value: Waypoint(wp)`, one Waypoint per item, in order. */
  function WaypointListOf(value: Json): (r: Result<seq<WaypointRecord>, Failure>)
    ensures r.Success? <==> Iterate(value).Success? && forall i :: 0 <= i < |Iterate(value).value| ==> Iterate(value).value[i].JObj?
    ensures r.Success? ==> |r.value| == |Iterate(value).value|
    ensures r.Success? ==> forall i :: 0 <= i < |r.value| ==> WaypointOf(Iterate(value).value[i]) == Success(r.value[i])
  {
    var items :- Iterate(value);
    HydrateAllItemwise(WaypointOf, items);
    HydrateAll(WaypointOf, items)
  }

  /** One key of `System(info)`: "waypoints" hydrates a list of Waypoints,
      any other key is a plain assignment or nothing. */
  function SystemStep(s: SystemRecord, key: string, value: Json): Result<SystemRecord, Failure> {
    if key == "waypoints" then SystemWaypointsStep(s, value) else Success(SystemPlainStep(s, key, value))
  }

  /** "waypoints": hydrate every item of the value as a Waypoint. */
  function SystemWaypointsStep(s: SystemRecord, value: Json): Result<SystemRecord, Failure> {
    match WaypointListOf(value)
    case Failure(e) => Failure(e)
    case Success(ws) => Success(s.(waypoints := Some(ws)))
  }

  /** The keys other than "waypoints"; "y" writes `x`. */
  function SystemPlainStep(s: SystemRecord, key: string, value: Json): SystemRecord {
    match key
    case "symbol" => s.(symbol := Some(value))
    case "sectorSymbol" => s.(sectorSymbol := Some(value))
    case "type" => s.(systemType := Some(value))
    case "x" => s.(x := Some(value))
    case "y" => s.(x := Some(value))
    case "factions" => s.(factions := Some(value))
    case _ => s
  }

  /** Every "waypoints" entry of the dict holds a hydratable list. */
  predicate WaypointListsHydrate(f: Fields) {
    forall i :: 0 <= i < |f| && f[i].0 == "waypoints" ==> WaypointListOf(f[i].1).Success?
  }

  /** Reference definition of a hydrated System: `y` is never set. */
  function SystemByLastWrite(f: Fields): SystemRecord
    requires WaypointListsHydrate(f)
  {
    LastEntryIsLastWrite(f, {"waypoints"});
    var waypoints := Written(f, {"waypoints"});
    SystemRecord(
      Written(f, {"symbol"}),
      Written(f, {"sectorSymbol"}),
      Written(f, {"type"}),
      Written(f, {"x", "y"}),
      None,
      if waypoints.Some? then Some(WaypointListOf(waypoints.value).value) else None,
      Written(f, {"factions"}))
  }

  /** One entry more: the step for the last entry takes the reference
      record of the rest of the dict to the reference record of the whole. */
  lemma SystemStepByLastWrite(f: Fields)
    requires f != [] && WaypointListsHydrate(f) && WaypointListsHydrate(f[..|f| - 1])
    ensures SystemStep(SystemByLastWrite(f[..|f| - 1]), f[|f| - 1].0, f[|f| - 1].1) == Success(SystemByLastWrite(f))
  {
    var e := f[|f| - 1];
    if e.0 == "waypoints" {
      assert WaypointListOf(e.1).Success?;
    } else if e.0 in {"x", "y"} {
    } else if e.0 in {"symbol", "sectorSymbol", "type", "factions"} {
    } else {
      assert e.0 !in SystemKeys;
    }
  }

  lemma {:induction false} SystemWalkByLastWrite(f: Fields)
    ensures Walk(UnsetSystem, SystemStep, f).Success? <==> WaypointListsHydrate(f)
    ensures WaypointListsHydrate(f) ==> Walk(UnsetSystem, SystemStep, f) == Success(SystemByLastWrite(f))
    decreases |f|
  {
    if f != [] {
      var p, e := f[..|f| - 1], f[|f| - 1];
      SystemWalkByLastWrite(p);
      if WaypointListsHydrate(f) {
        assert WaypointListsHydrate(p) by {
          forall i | 0 <= i < |p| && p[i].0 == "waypoints" ensures WaypointListOf(p[i].1).Success? {
            assert p[i] == f[i];
          }
        }
        SystemStepByLastWrite(f);
      } else if WaypointListsHydrate(p) {
        assert e.0 == "waypoints" && WaypointListOf(e.1).Failure?;
      }
    }
  }

  /** `System(info)`. */
  function SystemOf(info: Json): (r: Result<SystemRecord, Failure>)
    ensures !info.JObj? ==> r == Failure(AttributeError)
    ensures info.JObj? ==> (r.Success? <==> WaypointListsHydrate(info.fields))
    ensures r.Success? ==> r.value == SystemByLastWrite(info.fields)
  {
    if info.JObj? then
      SystemWalkByLastWrite(info.fields);
      Walk(UnsetSystem, SystemStep, info.fields)
    else
      Failure(AttributeError)
  }

  /** A key the System does not recognise leaves the record as it is. */
  lemma SystemStepSkips(s: SystemRecord, key: string, value: Json)
    requires key !in SystemKeys
    ensures SystemStep(s, key, value) == Success(s)
  {
  }

  /** A key the System does not recognise can be removed from the dict
      without changing the outcome. */
  lemma SystemIgnoresUnknownKey(a: Fields, k: string, v: Json, b: Fields)
    requires k !in SystemKeys
    ensures SystemOf(JObj(a + [(k, v)] + b)) == SystemOf(JObj(a + b))
  {
    forall s ensures SystemStep(s, k, v) == Success(s) {
      SystemStepSkips(s, k, v);
    }
    WalkIgnores(UnsetSystem, SystemStep, a, (k, v), b);
  }

  /** `x` holds the value of the later of the "x" and "y" entries, and `y`
      is never set. */
  lemma SystemXIsLaterOf(f: Fields, i: nat)
    requires SystemOf(JObj(f)).Success?
    requires i < |f| && f[i].0 in {"x", "y"}
    requires forall j :: i < j < |f| ==> f[j].0 !in {"x", "y"}
    ensures SystemOf(JObj(f)).value.x == Some(f[i].1)
    ensures SystemOf(JObj(f)).value.y == None
  {
    LastWriteWins(f, {"x", "y"}, i);
  }

  /** The waypoints of a System are the items of its last "waypoints"
      entry, each hydrated as a Waypoint, in the same number and order. */
  lemma SystemWaypointsFollowInput(f: Fields, i: nat)
    requires SystemOf(JObj(f)).Success?
    requires i < |f| && f[i].0 == "waypoints"
    requires forall j :: i < j < |f| ==> f[j].0 != "waypoints"
    ensures Iterate(f[i].1).Success?
    ensures var items := Iterate(f[i].1).value;
      var ws := SystemOf(JObj(f)).value.waypoints;
      && ws.Some? && |ws.value| == |items|
      && forall k :: 0 <= k < |items| ==> WaypointOf(items[k]) == Success(ws.value[k])
  {
    LastWriteWins(f, {"waypoints"}, i);
    assert WaypointListOf(f[i].1).Success?;
  }
}
