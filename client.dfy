/** The `SpaceTrader` client: the session attributes its endpoints write
    and the endpoints of the core, each proved against its value model in
    modules Dispatch and Registration. Every endpoint takes the server's
    answer (`Response`) where the Python client sends a request. */
module Client {
  import opened Wrappers
  import opened JsonValues
  import opened KeyWalk
  import opened Records
  import opened Symbols
  import opened Paging
  import opened Dispatch
  import opened Registration
  import opened Hydration

  class SpaceTrader {
    var token: Option<Json>
    var callsign: Option<Json>
    var headquarters: Option<Reply<Waypoint>>
    var startingFaction: Option<Json>
    var credits: Option<Json>
    var error: Option<Json>

    /** The Waypoint `headquarters` refers to, if it refers to one. */
    ghost function HeadquartersObjects(): set<Waypoint>
      reads this`headquarters
    {
      if headquarters.Some? && headquarters.value.Value? then {headquarters.value.value} else {}
    }

    /** The `headquarters` attribute, with its Waypoint, as a value. */
    ghost function HeadquartersPart(): Option<Reply<WaypointRecord>>
      reads this`headquarters, HeadquartersObjects()
    {
      match headquarters
      case None => None
      case Some(Value(w)) => Some(Value(w.Record()))
      case Some(Echoed(body)) => Some(Echoed(body))
      case Some(Nothing) => Some(Nothing)
    }

    /** The session attributes as a value. */
    ghost function State(): Session
      reads this, HeadquartersObjects()
    {
      Session(token, callsign, HeadquartersPart(), startingFaction, credits, error)
    }

    /** A client whose attributes hold the class-level defaults: all `None`. */
    constructor Unregistered()
      ensures State() == Session(None, None, None, None, None, None)
    {
      token, callsign, headquarters := None, None, None;
      startingFaction, credits, error := None, None, None;
    }

    /** `get_agent`: the agent's `data` on 200, TokenError on 401, and the
        error body, stored and returned, on anything else (404 included). */
    method GetAgent(resp: Response) returns (r: Result<Reply<Json>, Failure>)
      modifies this`error
      ensures r == Outcome(resp, false, EchoBody, Data)
      ensures error == ErrorAfter(old(error), resp, false)
    {
      if resp.status == Ok {
        var data := Data(resp.body);
        if data.Failure? {
          return Failure(data.error);
        }
        return Success(Value(data.value));
      } else if resp.status == Unauthorized {
        return Failure(TokenError);
      } else {
        error := Some(resp.body);
        return Success(Echoed(resp.body));
      }
    }

    /** `accept_contract`: 1 on 200, 0 on the fallback arm. */
    method AcceptContract(resp: Response) returns (r: Result<int, Failure>)
      ensures r == ContractAction(resp.status)
      ensures r.Success? ==> r.value == 0 || r.value == 1
    {
      if resp.status == Ok {
        return Success(1);
      } else if resp.status == Unauthorized {
        return Failure(TokenError);
      } else if resp.status == NotFound {
        return Failure(ResourceNotFound);
      } else {
        return Success(0);
      }
    }

    /** `get_waypoint`: a fresh Waypoint hydrated from `data` on 200, the
        error body, stored and echoed, on the fallback arm. */
    method GetWaypoint(resp: Response) returns (r: Result<Reply<Waypoint>, Failure>)
      modifies this`error
      ensures var expected := Outcome(resp, true, EchoBody, WaypointInBody);
        (r.Failure? <==> expected.Failure?) &&
        (r.Failure? ==> r.error == expected.error) &&
        (r.Success? ==> (r.value.Value? <==> expected.value.Value?)) &&
        (r.Success? && r.value.Value? ==> fresh(r.value.value) && r.value.value.Record() == expected.value.value) &&
        (r.Success? && !r.value.Value? ==> r.value == Echoed(resp.body) && expected.value == Echoed(resp.body))
      ensures error == ErrorAfter(old(error), resp, true)
    {
      if resp.status == Ok {
        var data := Data(resp.body);
        if data.Failure? {
          return Failure(data.error);
        }
        var w := Waypoint.FromJson(data.value);
        if w.Failure? {
          return Failure(w.error);
        }
        return Success(Value(w.value));
      } else if resp.status == Unauthorized {
        return Failure(TokenError);
      } else if resp.status == NotFound {
        return Failure(ResourceNotFound);
      } else {
        error := Some(resp.body);
        return Success(Echoed(resp.body));
      }
    }

    /** `Ship(symbol=info["symbol"], ship_info=info)` for one item. */
    static method ShipFromItem(info: Json) returns (r: Result<Ship, Failure>)
      ensures r.Success? <==> ShipWithOwnSymbol(info).Success?
      ensures r.Failure? ==> r.error == ShipWithOwnSymbol(info).error
      ensures r.Success? ==> fresh(r.value) && r.value.Record() == ShipWithOwnSymbol(info).value
    {
      var symbol := Subscript(info, "symbol");
      if symbol.Failure? {
        return Failure(symbol.error);
      }
      r := Ship.FromJson(symbol.value, info);
    }

    /** The loop of `list_ships`: one fresh Ship per item, appended in
        order, or the exception of the first item that raises. */
    static method ShipsFromItems(items: seq<Json>) returns (r: Result<seq<Ship>, Failure>)
      ensures r.Success? <==> HydrateAll(ShipWithOwnSymbol, items).Success?
      ensures r.Failure? ==> r.error == HydrateAll(ShipWithOwnSymbol, items).error
      ensures r.Success? ==> |r.value| == |items|
      ensures r.Success? ==> forall k :: 0 <= k < |items| ==>
        fresh(r.value[k]) && r.value[k].Record() == HydrateAll(ShipWithOwnSymbol, items).value[k]
    {
      var ships: seq<Ship> := [];
      ghost var records: seq<ShipRecord> := [];
      for i := 0 to |items|
        invariant HydrateAll(ShipWithOwnSymbol, items[..i]) == Success(records)
        invariant |ships| == |records| == i
        invariant forall k :: 0 <= k < i ==> fresh(ships[k]) && ships[k].Record() == records[k]
      {
        var ship := ShipFromItem(items[i]);
        HydrateAllPrefix(ShipWithOwnSymbol, items, i);
        if ship.Failure? {
          HydrateAllFailsAt(ShipWithOwnSymbol, items, i);
          return Failure(ship.error);
        }
        ships := ships + [ship.value];
        records := records + [ship.value.Record()];
      }
      assert items[..|items|] == items;
      return Success(ships);
    }

    /** `list_ships`: the clamped query, then on 200 one fresh Ship per item
        of `data`, in order, and on the fallback arm the error body, stored
        and echoed. */
    method ListShips(resp: Response, limit: int := DefaultLimit, page: int := DefaultPage) returns (query: Query, r: Result<Reply<seq<Ship>>, Failure>)
      modifies this`error
      ensures query == Query(ClampLimit(limit), ClampPage(page))
      ensures var expected := Outcome(resp, true, EchoBody, ShipListInBody);
        (r.Failure? <==> expected.Failure?) &&
        (r.Failure? ==> r.error == expected.error) &&
        (r.Success? ==> (r.value.Value? <==> expected.value.Value?)) &&
        (r.Success? && r.value.Value? ==>
          |r.value.value| == |expected.value.value| &&
          forall k :: 0 <= k < |r.value.value| ==>
            fresh(r.value.value[k]) && r.value.value[k].Record() == expected.value.value[k]) &&
        (r.Success? && !r.value.Value? ==> r.value == Echoed(resp.body) && expected.value == Echoed(resp.body))
      ensures error == ErrorAfter(old(error), resp, true)
    {
      query := Clamp(limit, page);
      if resp.status == Ok {
        var data := Data(resp.body);
        if data.Failure? {
          return query, Failure(data.error);
        }
        var items := Iterate(data.value);
        if items.Failure? {
          return query, Failure(items.error);
        }
        var ships := ShipsFromItems(items.value);
        if ships.Failure? {
          return query, Failure(ships.error);
        }
        return query, Success(Value(ships.value));
      } else if resp.status == Unauthorized {
        return query, Failure(TokenError);
      } else if resp.status == NotFound {
        return query, Failure(ResourceNotFound);
      } else {
        error := Some(resp.body);
        return query, Success(Echoed(resp.body));
      }
    }

    /** The loop of `list_systems`: one fresh System per item, appended in
        order, or the exception of the first item that raises. */
    static method SystemsFromItems(items: seq<Json>) returns (r: Result<seq<System>, Failure>)
      ensures r.Success? <==> HydrateAll(SystemOf, items).Success?
      ensures r.Failure? ==> r.error == HydrateAll(SystemOf, items).error
      ensures r.Success? ==> |r.value| == |items|
      ensures r.Success? ==> forall k :: 0 <= k < |items| ==>
        fresh(r.value[k]) && r.value[k].Record() == HydrateAll(SystemOf, items).value[k]
    {
      var systems: seq<System> := [];
      ghost var records: seq<SystemRecord> := [];
      for i := 0 to |items|
        invariant HydrateAll(SystemOf, items[..i]) == Success(records)
        invariant |systems| == |records| == i
        invariant forall k :: 0 <= k < i ==> fresh(systems[k]) && systems[k].Record() == records[k]
      {
        var system := System.FromJson(items[i]);
        HydrateAllPrefix(SystemOf, items, i);
        if system.Failure? {
          HydrateAllFailsAt(SystemOf, items, i);
          return Failure(system.error);
        }
        systems := systems + [system.value];
        records := records + [system.value.Record()];
      }
      assert items[..|items|] == items;
      return Success(systems);
    }

    /** `list_systems`: the clamped query, then on 200 one fresh System per
        item of `data`, in order, and on the fallback arm `None` (the error
        body stored). */
    method ListSystems(resp: Response, limit: int := DefaultLimit, page: int := DefaultPage) returns (query: Query, r: Result<Reply<seq<System>>, Failure>)
      modifies this`error
      ensures query == Query(ClampLimit(limit), ClampPage(page))
      ensures var expected := Outcome(resp, true, ReturnNone, SystemListInBody);
        (r.Failure? <==> expected.Failure?) &&
        (r.Failure? ==> r.error == expected.error) &&
        (r.Success? ==> (r.value.Value? <==> expected.value.Value?)) &&
        (r.Success? && r.value.Value? ==>
          |r.value.value| == |expected.value.value| &&
          forall k :: 0 <= k < |r.value.value| ==>
            fresh(r.value.value[k]) && r.value.value[k].Record() == expected.value.value[k]) &&
        (r.Success? && !r.value.Value? ==> r.value == Nothing && expected.value == Nothing)
      ensures error == ErrorAfter(old(error), resp, true)
    {
      query := Clamp(limit, page);
      if resp.status == Ok {
        var data := Data(resp.body);
        if data.Failure? {
          return query, Failure(data.error);
        }
        var items := Iterate(data.value);
        if items.Failure? {
          return query, Failure(items.error);
        }
        var systems := SystemsFromItems(items.value);
        if systems.Failure? {
          return query, Failure(systems.error);
        }
        return query, Success(Value(systems.value));
      } else if resp.status == Unauthorized {
        return query, Failure(TokenError);
      } else if resp.status == NotFound {
        return query, Failure(ResourceNotFound);
      } else {
        error := Some(resp.body);
        return query, Success(Nothing);
      }
    }

    /** `get_ship`: a fresh Ship hydrated from `data` on 200, `None` (and the
        error body stored) on the fallback arm. */
    method GetShip(resp: Response) returns (r: Result<Reply<Ship>, Failure>)
      modifies this`error
      ensures var expected := Outcome(resp, true, ReturnNone, ShipInBody);
        (r.Failure? <==> expected.Failure?) &&
        (r.Failure? ==> r.error == expected.error) &&
        (r.Success? ==> (r.value.Value? <==> expected.value.Value?)) &&
        (r.Success? && r.value.Value? ==> fresh(r.value.value) && r.value.value.Record() == expected.value.value) &&
        (r.Success? && !r.value.Value? ==> r.value == Nothing && expected.value == Nothing)
      ensures error == ErrorAfter(old(error), resp, true)
    {
      if resp.status == Ok {
        var data := Data(resp.body);
        if data.Failure? {
          return Failure(data.error);
        }
        var ship := ShipFromItem(data.value);
        if ship.Failure? {
          return Failure(ship.error);
        }
        return Success(Value(ship.value));
      } else if resp.status == Unauthorized {
        return Failure(TokenError);
      } else if resp.status == NotFound {
        return Failure(ResourceNotFound);
      } else {
        error := Some(resp.body);
        return Success(Nothing);
      }
    }

    /** `purchase_ship`: on 200 a fresh Ship from the top-level "ship" and
        the credits from the top-level "agent"; `credits` changes only when
        both are read without raising. */
    method PurchaseShip(resp: Response) returns (r: Result<Reply<Ship>, Failure>)
      modifies this`error, this`credits
      ensures var expected := Outcome(resp, true, ReturnNone, PurchaseInBody);
        (r.Failure? <==> expected.Failure?) &&
        (r.Failure? ==> r.error == expected.error) &&
        (r.Success? ==> (r.value.Value? <==> expected.value.Value?)) &&
        (r.Success? && r.value.Value? ==> fresh(r.value.value) && r.value.value.Record() == expected.value.value.0) &&
        (r.Success? && !r.value.Value? ==> r.value == Nothing && expected.value == Nothing) &&
        credits == if expected.Success? && expected.value.Value? then Some(expected.value.value.1) else old(credits)
      ensures error == ErrorAfter(old(error), resp, true)
    {
      if resp.status == Ok {
        var shipInfo := Subscript(resp.body, "ship");
        if shipInfo.Failure? {
          return Failure(shipInfo.error);
        }
        var ship := ShipFromItem(shipInfo.value);
        if ship.Failure? {
          return Failure(ship.error);
        }
        var agent := Subscript(resp.body, "agent");
        if agent.Failure? {
          return Failure(agent.error);
        }
        var amount := Subscript(agent.value, "credits");
        if amount.Failure? {
          return Failure(amount.error);
        }
        credits := Some(amount.value);
        return Success(Value(ship.value));
      } else if resp.status == Unauthorized {
        return Failure(TokenError);
      } else if resp.status == NotFound {
        return Failure(ResourceNotFound);
      } else {
        error := Some(resp.body);
        return Success(Nothing);
      }
    }

    /** `register_agent`, with the headquarters stored as the lookup
        answered it (the Python client wraps that answer in a second
        `Waypoint(...)`, module Registration). `hq` is the answer to the
        headquarters lookup; `lookup` is the path that lookup requests. */
    method RegisterAgent(name: string, reg: Response, hq: Response) returns (lookup: Option<string>, r: Result<(), Failure>)
      modifies this`token, this`callsign, this`headquarters, this`startingFaction, this`credits, this`error
      ensures Registered(State(), lookup, r) == CorrectedRegistration(old(State()), name, reg, hq)
      ensures headquarters != old(headquarters) && headquarters.Some? && headquarters.value.Value? ==>
        fresh(headquarters.value.value)
    {
      if reg.status == Ok {
        var data := Data(reg.body);
        if data.Failure? {
          return None, Failure(data.error);
        }
        lookup, r := Enroll(data.value, hq);
      } else if reg.status == Conflict {
        return None, Failure(AgentSymbolTaken(name));
      } else if reg.status == Unauthorized {
        return None, Failure(TokenError);
      } else {
        error := Some(reg.body);
        return None, Failure(CouldNotRegisterAgent);
      }
    }

    /** The 200 arm of `register_agent` up to the headquarters lookup. */
    method Enroll(data: Json, hq: Response) returns (lookup: Option<string>, r: Result<(), Failure>)
      modifies this`token, this`callsign, this`headquarters, this`startingFaction, this`credits, this`error
      ensures Registered(State(), lookup, r) == Registration.Enroll(old(State()), data, hq, StoredAsAnswered)
      ensures headquarters != old(headquarters) && headquarters.Some? && headquarters.value.Value? ==>
        fresh(headquarters.value.value)
    {
      var t := Subscript(data, "token");
      if t.Failure? {
        return None, Failure(t.error);
      }
      token := Some(t.value);
      var symbol := Subscript(data, "symbol");
      if symbol.Failure? {
        return None, Failure(symbol.error);
      }
      callsign := Some(symbol.value);
      var waypoint := Subscript(data, "headquarters");
      if waypoint.Failure? {
        return None, Failure(waypoint.error);
      }
      var system := HeadquartersOf(waypoint.value);
      if system.Failure? {
        return None, Failure(system.error);
      }
      var path := WaypointPath(system.value, waypoint.value.s);
      r := Settle(data, path, hq);
      lookup := Some(path);
    }

    /** The 200 arm of `register_agent` from the headquarters lookup on. */
    method Settle(data: Json, path: string, hq: Response) returns (r: Result<(), Failure>)
      modifies this`headquarters, this`startingFaction, this`credits, this`error
      ensures Registered(State(), Some(path), r) == Registration.Settle(old(State()), data, path, hq, StoredAsAnswered)
      ensures headquarters != old(headquarters) && headquarters.Some? && headquarters.value.Value? ==>
        fresh(headquarters.value.value)
    {
      var answer := GetWaypoint(hq);
      if answer.Failure? {
        return Failure(answer.error);
      }
      headquarters := Some(answer.value);
      var faction := Subscript(data, "startingFaction");
      if faction.Failure? {
        return Failure(faction.error);
      }
      startingFaction := Some(faction.value);
      var amount := Subscript(data, "credits");
      if amount.Failure? {
        return Failure(amount.error);
      }
      credits := Some(amount.value);
      return Success(());
    }
  }
}
