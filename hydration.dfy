/** The client's record classes `Waypoint`, `ShipNav`, `Ship` and `System`.
    Each constructor loops over the keys of its dict and assigns one
    attribute per recognised key; an attribute whose key never comes stays
    unset (`None` here, missing in the Python client). Each class is proved
    against its value model in module Records: the attributes of a freshly
    hydrated object, read back as a record, are what the key walk gives. */
module Hydration {
  import opened Wrappers
  import opened JsonValues
  import opened KeyWalk
  import opened Records

  // ---------------------------------------------------------------------
  // Waypoint

  class Waypoint {
    var sector: string
    var symbol: Option<Json>
    var systemSymbol: Option<Json>
    var waypointType: Option<Json>
    var x: Option<Json>
    var y: Option<Json>
    var orbitals: Option<Json>
    var faction: Option<Json>
    var traits: Option<Json>

    /** The attributes of this Waypoint as a value. */
    ghost function Record(): WaypointRecord
      reads this
    {
      WaypointRecord(sector, symbol, systemSymbol, waypointType, x, y, orbitals, faction, traits)
    }

    /** The object before its first key: only `sector` is set. */
    constructor Empty()
      ensures Record() == UnsetWaypoint
    {
      sector := "X1";
      symbol, systemSymbol, waypointType := None, None, None;
      x, y, orbitals, faction, traits := None, None, None, None, None;
    }

    /** One turn of the constructor's loop: the `match` on one key. */
    method Assign(key: string, value: Json)
      modifies this
      ensures Success(Record()) == WaypointStep(old(Record()), key, value)
    {
      match key {
        case "symbol" => symbol := Some(value);
        case "systemSymbol" => systemSymbol := Some(value);
        case "waypoint_type" => waypointType := Some(value);
        case "x" => x := Some(value);
        case "y" => y := Some(value);
        case "orbitals" => orbitals := Some(value);
        case "faction" => faction := Some(value);
        case "traits" => traits := Some(value);
        case "chart" => waypointType := Some(value);
        case _ =>
      }
    }

    /** `Waypoint(info)`. A value without `keys()` raises AttributeError;
        a dict never makes the loop raise. */
    static method FromJson(info: Json) returns (r: Result<Waypoint, Failure>)
      ensures r.Success? <==> info.JObj?
      ensures r.Failure? ==> r.error == AttributeError
      ensures r.Success? ==> fresh(r.value) && r.value.Record() == WaypointByLastWrite(info.fields)
    {
      if !info.JObj? {
        return Failure(AttributeError);
      }
      var f := info.fields;
      var w := new Waypoint.Empty();
      for i := 0 to |f|
        invariant Walk(UnsetWaypoint, WaypointStep, f[..i]) == Success(w.Record())
      {
        ghost var before := w.Record();
        w.Assign(f[i].0, f[i].1);
        WalkStepsTo(UnsetWaypoint, WaypointStep, f, i, before, w.Record());
      }
      assert f[..|f|] == f;
      WaypointWalkByLastWrite(f);
      return Success(w);
    }

    /** `for wp in items: waypoints.append(Waypoint(wp))`: one fresh
        Waypoint per item, in order, or the exception of the first item
        that raises. */
    static method AllFromJson(items: seq<Json>) returns (r: Result<seq<Waypoint>, Failure>)
      ensures r.Success? <==> HydrateAll(WaypointOf, items).Success?
      ensures r.Failure? ==> r.error == HydrateAll(WaypointOf, items).error
      ensures r.Success? ==> forall w | w in r.value :: fresh(w)
      ensures r.Success? ==> WaypointRecords(r.value) == HydrateAll(WaypointOf, items).value
    {
      var ws: seq<Waypoint> := [];
      for i := 0 to |items|
        invariant forall w | w in ws :: fresh(w)
        invariant HydrateAll(WaypointOf, items[..i]) == Success(WaypointRecords(ws))
      {
        ghost var done := WaypointRecords(ws);
        var w := FromJson(items[i]);
        assert WaypointRecords(ws) == done;
        HydrateAllPrefix(WaypointOf, items, i);
        if w.Failure? {
          HydrateAllFailsAt(WaypointOf, items, i);
          return Failure(w.error);
        }
        assert (ws + [w.value])[..|ws|] == ws;
        ws := ws + [w.value];
      }
      assert items[..|items|] == items;
      return Success(ws);
    }
  }

  /** The records of a list of Waypoints, item by item. */
  ghost function WaypointRecords(ws: seq<Waypoint>): (rs: seq<WaypointRecord>)
    reads set w | w in ws
    ensures |rs| == |ws|
    ensures forall i :: 0 <= i < |ws| ==> rs[i] == ws[i].Record()
    decreases |ws|
  {
    if ws == [] then [] else WaypointRecords(ws[..|ws| - 1]) + [ws[|ws| - 1].Record()]
  }

  // ---------------------------------------------------------------------
  // ShipNav

  class ShipNav {
    var systemSymbol: Option<Json>
    var waypointSymbol: Option<Json>
    var route: Option<Json>
    var destination: Option<Waypoint>
    var departure: Option<Waypoint>
    var status: Option<Json>

    /** The Waypoint objects this ShipNav refers to. */
    ghost function Ends(): set<Waypoint>
      reads this
    {
      (if destination.Some? then {destination.value} else {}) +
      (if departure.Some? then {departure.value} else {})
    }

    /** The attributes of this ShipNav, and of its Waypoints, as a value. */
    ghost function Record(): NavRecord
      reads this, Ends()
    {
      NavRecord(
        systemSymbol, waypointSymbol, route,
        if destination.Some? then Some(destination.value.Record()) else None,
        if departure.Some? then Some(departure.value.Record()) else None,
        status)
    }

    constructor Empty()
      ensures Record() == UnsetNav
    {
      systemSymbol, waypointSymbol, route := None, None, None;
      destination, departure, status := None, None, None;
    }

    /** `Waypoint(route["destination"])`, then `Waypoint(route["departure"])`. */
    static method RouteFromJson(route: Json) returns (r: Result<(Waypoint, Waypoint), Failure>)
      ensures r.Success? <==> RouteOf(route).Success?
      ensures r.Failure? ==> r.error == RouteOf(route).error
      ensures r.Success? ==> fresh(r.value.0) && fresh(r.value.1)
      ensures r.Success? ==> (r.value.0.Record(), r.value.1.Record()) == RouteOf(route).value
    {
      var destination := Subscript(route, "destination");
      if destination.Failure? {
        return Failure(destination.error);
      }
      var toward := Waypoint.FromJson(destination.value);
      if toward.Failure? {
        return Failure(toward.error);
      }
      var departure := Subscript(route, "departure");
      if departure.Failure? {
        return Failure(departure.error);
      }
      var from := Waypoint.FromJson(departure.value);
      if from.Failure? {
        return Failure(from.error);
      }
      return Success((toward.value, from.value));
    }

    /** One turn of the constructor's loop: the `match` on one key. A
        "route" raises when its ends do not hydrate. */
    method Assign(key: string, value: Json) returns (r: Result<(), Failure>)
      modifies this
      ensures r.Failure? ==> NavStep(old(Record()), key, value) == Failure(r.error)
      ensures r.Success? ==> NavStep(old(Record()), key, value) == Success(Record())
      ensures fresh(Ends() - old(Ends()))
    {
      if key == "route" {
        r := AssignRoute(value);
      } else {
        AssignPlain(key, value);
        r := Success(());
      }
    }

    /** "route": `self.route`, `self.destination`, `self.departure`. */
    method AssignRoute(value: Json) returns (r: Result<(), Failure>)
      modifies this`route, this`destination, this`departure
      ensures r.Failure? ==> NavRouteStep(old(Record()), value) == Failure(r.error)
      ensures r.Success? ==> NavRouteStep(old(Record()), value) == Success(Record())
      ensures fresh(Ends() - old(Ends()))
    {
      var ends := RouteFromJson(value);
      if ends.Failure? {
        return Failure(ends.error);
      }
      route := Some(value);
      destination := Some(ends.value.0);
      departure := Some(ends.value.1);
      return Success(());
    }

    /** The keys other than "route". */
    method AssignPlain(key: string, value: Json)
      modifies this`systemSymbol, this`waypointSymbol, this`status
      ensures Record() == NavPlainStep(old(Record()), key, value)
    {
      match key {
        case "systemSymbol" => systemSymbol := Some(value);
        case "waypointSymbol" => waypointSymbol := Some(value);
        case "status" => status := Some(value);
        case "flightMode" => status := Some(value);
        case _ =>
      }
    }

    /** `ShipNav(info)`. */
    static method FromJson(info: Json) returns (r: Result<ShipNav, Failure>)
      ensures r.Success? <==> NavOf(info).Success?
      ensures r.Failure? ==> r.error == NavOf(info).error
      ensures r.Success? ==> fresh(r.value) && fresh(r.value.Ends())
      ensures r.Success? ==> r.value.Record() == NavByLastWrite(info.fields)
    {
      if !info.JObj? {
        return Failure(AttributeError);
      }
      var f := info.fields;
      var n := new ShipNav.Empty();
      for i := 0 to |f|
        invariant fresh(n.Ends())
        invariant Walk(UnsetNav, NavStep, f[..i]) == Success(n.Record())
      {
        ghost var before := n.Record();
        var step := n.Assign(f[i].0, f[i].1);
        if step.Failure? {
          WalkFailsAt(UnsetNav, NavStep, f, i, before);
          return Failure(step.error);
        }
        WalkStepsTo(UnsetNav, NavStep, f, i, before, n.Record());
      }
      assert f[..|f|] == f;
      return Success(n);
    }
  }

  // ---------------------------------------------------------------------
  // Ship

  /** What the `nav` attribute of a Ship refers to: a ShipNav object, or
      the raw value a "reactor" or "cargo" key left there. */
  datatype NavAttribute = NavObject(obj: ShipNav) | NavValue(raw: Json)

  class Ship {
    var symbol: Json
    var registration: Option<Json>
    var nav: Option<NavAttribute>
    var crew: Option<Json>
    var frame: Option<Json>
    var engine: Option<Json>
    var modules: Option<Json>
    var mounts: Option<Json>
    var fuel: Option<Json>

    /** The ShipNav object `nav` refers to, if it refers to one. */
    ghost function NavObjects(): set<ShipNav>
      reads this`nav
    {
      if nav.Some? && nav.value.NavObject? then {nav.value.obj} else {}
    }

    /** The Waypoint objects reachable through `nav`. */
    ghost function NavEnds(): set<Waypoint>
      reads this`nav, NavObjects()
    {
      if nav.Some? && nav.value.NavObject? then nav.value.obj.Ends() else {}
    }

    /** The `nav` attribute, and the ShipNav it may refer to, as a value. */
    ghost function NavPart(): Option<NavSlot>
      reads this`nav, NavObjects(), NavEnds()
    {
      match nav
      case None => None
      case Some(NavObject(obj)) => Some(HydratedNav(obj.Record()))
      case Some(NavValue(raw)) => Some(RawNav(raw))
    }

    /** The attributes of this Ship, and of the objects it refers to, as a value. */
    ghost function Record(): ShipRecord
      reads this, NavObjects(), NavEnds()
    {
      Plain().(nav := NavPart())
    }

    /** `self.symbol = symbol`, every other attribute unset. */
    constructor Empty(symbol: Json)
      ensures Record() == UnsetShip(symbol)
    {
      this.symbol := symbol;
      registration, nav, crew, frame := None, None, None, None;
      engine, modules, mounts, fuel := None, None, None, None;
    }

    /** "nav": `self.nav = ShipNav(value)`. */
    method AssignNav(value: Json) returns (r: Result<(), Failure>)
      modifies this`nav
      ensures r.Failure? ==> ShipNavStep(old(Record()), value) == Failure(r.error)
      ensures r.Success? ==> ShipNavStep(old(Record()), value) == Success(Record())
      ensures r.Success? ==> fresh(NavObjects()) && fresh(NavEnds())
      ensures r.Failure? ==> nav == old(nav)
    {
      var n := ShipNav.FromJson(value);
      if n.Failure? {
        return Failure(n.error);
      }
      nav := Some(NavObject(n.value));
      return Success(());
    }

    /** The attributes of this Ship other than `nav`, with `nav` left unset. */
    ghost function Plain(): ShipRecord
      reads this
    {
      ShipRecord(symbol, registration, None, crew, frame, engine, modules, mounts, fuel)
    }

    /** The keys that do not write `nav`. */
    method AssignPlain(key: string, value: Json)
      requires key !in NavWriters
      modifies this`registration, this`crew, this`frame, this`engine, this`modules, this`mounts, this`fuel
      ensures Plain() == ShipPlainStep(old(Plain()), key, value)
    {
      match key {
        case "registration" => registration := Some(value);
        case "crew" => crew := Some(value);
        case "frame" => frame := Some(value);
        case "engine" => engine := Some(value);
        case "modules" => modules := Some(value);
        case "mounts" => mounts := Some(value);
        case "fuel" => fuel := Some(value);
        case _ =>
      }
    }

    /** `Ship(symbol, info)`: a falsy symbol raises ShipSymbolNotDefined
        before `info` is looked at. */
    static method FromJson(symbol: Json, info: Json) returns (r: Result<Ship, Failure>)
      ensures r.Success? <==> ShipOf(symbol, info).Success?
      ensures r.Failure? ==> r.error == ShipOf(symbol, info).error
      ensures r.Success? ==> fresh(r.value) && fresh(r.value.NavObjects()) && fresh(r.value.NavEnds())
      ensures r.Success? ==> r.value.Record() == ShipByLastWrite(symbol, info.fields)
    {
      if !Truthy(symbol) {
        return Failure(ShipSymbolNotDefined);
      }
      if !info.JObj? {
        return Failure(AttributeError);
      }
      var f := info.fields;
      var s := new Ship.Empty(symbol);
      for i := 0 to |f|
        invariant fresh(s.NavObjects()) && fresh(s.NavEnds())
        invariant Walk(UnsetShip(symbol), ShipStep, f[..i]) == Success(s.Record())
      {
        ghost var before := s.Record();
        var key, value := f[i].0, f[i].1;
        if key == "nav" {
          var step := s.AssignNav(value);
          if step.Failure? {
            WalkFailsAt(UnsetShip(symbol), ShipStep, f, i, before);
            return Failure(step.error);
          }
          assert ShipStep(before, key, value) == ShipNavStep(before, value);
        } else if key == "reactor" || key == "cargo" {
          s.nav := Some(NavValue(value));
          assert ShipStep(before, key, value) == Success(before.(nav := Some(RawNav(value))));
        } else {
          ghost var plain := s.Plain();
          s.AssignPlain(key, value);
          ShipPlainStepKeepsNav(plain, key, value, before.nav);
          assert before == plain.(nav := before.nav);
          assert ShipStep(before, key, value) == Success(ShipPlainStep(before, key, value));
        }
        WalkStepsTo(UnsetShip(symbol), ShipStep, f, i, before, s.Record());
      }
      assert f[..|f|] == f;
      return Success(s);
    }
  }

  // ---------------------------------------------------------------------
  // System

  class System {
    var symbol: Option<Json>
    var sectorSymbol: Option<Json>
    var systemType: Option<Json>
    var x: Option<Json>
    var y: Option<Json>
    var waypoints: Option<seq<Waypoint>>
    var factions: Option<Json>

    /** The Waypoint objects of `waypoints`. */
    ghost function Members(): set<Waypoint>
      reads this`waypoints
    {
      if waypoints.Some? then set w | w in waypoints.value else {}
    }

    /** The `waypoints` attribute, with its Waypoints, as a value. */
    ghost function WaypointsPart(): Option<seq<WaypointRecord>>
      reads this`waypoints, Members()
    {
      if waypoints.Some? then Some(WaypointRecords(waypoints.value)) else None
    }

    /** The attributes of this System, and of its Waypoints, as a value. */
    ghost function Record(): SystemRecord
      reads this, Members()
    {
      SystemRecord(symbol, sectorSymbol, systemType, x, y, WaypointsPart(), factions)
    }

    constructor Empty()
      ensures Record() == UnsetSystem
    {
      symbol, sectorSymbol, systemType, x := None, None, None, None;
      y, waypoints, factions := None, None, None;
    }

    /** One turn of the constructor's loop: the `match` on one key.
        "waypoints" raises when its value is not iterable or one of its
        items does not hydrate as a Waypoint. */
    method Assign(key: string, value: Json) returns (r: Result<(), Failure>)
      modifies this
      ensures r.Failure? ==> SystemStep(old(Record()), key, value) == Failure(r.error)
      ensures r.Success? ==> SystemStep(old(Record()), key, value) == Success(Record())
      ensures fresh(Members() - old(Members()))
    {
      if key == "waypoints" {
        r := AssignWaypoints(value);
      } else {
        AssignPlain(key, value);
        r := Success(());
      }
    }

    /** "waypoints": `self.waypoints = [Waypoint(wp) for wp in value]`. */
    method AssignWaypoints(value: Json) returns (r: Result<(), Failure>)
      modifies this`waypoints
      ensures r.Failure? ==> SystemWaypointsStep(old(Record()), value) == Failure(r.error)
      ensures r.Success? ==> SystemWaypointsStep(old(Record()), value) == Success(Record())
      ensures fresh(Members() - old(Members()))
    {
      var items := Iterate(value);
      if items.Failure? {
        return Failure(items.error);
      }
      var ws := Waypoint.AllFromJson(items.value);
      if ws.Failure? {
        return Failure(ws.error);
      }
      waypoints := Some(ws.value);
      return Success(());
    }

    /** The keys other than "waypoints"; "y" writes `x`. */
    method AssignPlain(key: string, value: Json)
      modifies this`symbol, this`sectorSymbol, this`systemType, this`x, this`factions
      ensures Record() == SystemPlainStep(old(Record()), key, value)
    {
      ghost var waypointsPart := WaypointsPart();
      match key {
        case "symbol" => symbol := Some(value);
        case "sectorSymbol" => sectorSymbol := Some(value);
        case "type" => systemType := Some(value);
        case "x" => x := Some(value);
        case "y" => x := Some(value);
        case "factions" => factions := Some(value);
        case _ =>
      }
      assert WaypointsPart() == waypointsPart;
    }

    /** `System(info)`. */
    static method FromJson(info: Json) returns (r: Result<System, Failure>)
      ensures r.Success? <==> SystemOf(info).Success?
      ensures r.Failure? ==> r.error == SystemOf(info).error
      ensures r.Success? ==> fresh(r.value) && fresh(r.value.Members())
      ensures r.Success? ==> r.value.Record() == SystemByLastWrite(info.fields)
    {
      if !info.JObj? {
        return Failure(AttributeError);
      }
      var f := info.fields;
      var s := new System.Empty();
      for i := 0 to |f|
        invariant fresh(s.Members())
        invariant Walk(UnsetSystem, SystemStep, f[..i]) == Success(s.Record())
      {
        ghost var before := s.Record();
        var step := s.Assign(f[i].0, f[i].1);
        if step.Failure? {
          WalkFailsAt(UnsetSystem, SystemStep, f, i, before);
          return Failure(step.error);
        }
        WalkStepsTo(UnsetSystem, SystemStep, f, i, before, s.Record());
      }
      assert f[..|f|] == f;
      return Success(s);
    }
  }
}
