/** The status dispatch of the client's endpoints, as values. Every endpoint
    sends one request and branches on the status code of the answer: 200
    unwraps the body, 401 raises TokenError, 404 raises ResourceNotFound
    (where the endpoint checks for it), and any other code stores the body
    in `self.error` and returns the body or `None`. The contract actions
    differ: they answer 1 on 200, raise on 401 and 404 like the others, and
    answer 0 on any other code without storing the body (`ContractAction`).
    The HTTP call itself is replaced by its answer, a `Response`. */
module Dispatch {
  import opened Wrappers
  import opened JsonValues
  import opened KeyWalk
  import opened Records

  /** What `requests` hands back: the status code and the parsed body. */
  datatype Response = Response(status: int, body: Json)

  /** The status codes the client tells apart (sections 15.3.1, 15.5.2,
      15.5.5 and 15.5.10 of RFC 9110). */
  const Ok := 200
  const Unauthorized := 401
  const NotFound := 404
  const Conflict := 409

  /** The arm of the `if`/`elif` chain a status code selects. */
  datatype Branch = Unwrap | Raise(failure: Failure) | Fallback

  /** The chain every endpoint shares. `checksNotFound` is false for the one
      endpoint without a 404 arm, `get_agent`. */
  function Route(status: int, checksNotFound: bool): (b: Branch)
    ensures b == Unwrap <==> status == Ok
    ensures b == Raise(TokenError) <==> status == Unauthorized
    ensures b == Raise(ResourceNotFound) <==> checksNotFound && status == NotFound
    ensures b == Fallback <==> status != Ok && status != Unauthorized && !(checksNotFound && status == NotFound)
  {
    if status == Ok then Unwrap
    else if status == Unauthorized then Raise(TokenError)
    else if checksNotFound && status == NotFound then Raise(ResourceNotFound)
    else Fallback
  }

  /** The chain of `register_agent`: 409 raises AgentSymbolTaken for the
      callsign asked for, and the fallback (which also raises) is taken for
      every code but 200, 401 and 409. */
  function RegisterRoute(status: int, callsign: string): (b: Branch)
    ensures b == Unwrap <==> status == Ok
    ensures b == Raise(AgentSymbolTaken(callsign)) <==> status == Conflict
    ensures b == Raise(TokenError) <==> status == Unauthorized
    ensures b == Fallback <==> status != Ok && status != Conflict && status != Unauthorized
  {
    if status == Ok then Unwrap
    else if status == Conflict then Raise(AgentSymbolTaken(callsign))
    else if status == Unauthorized then Raise(TokenError)
    else Fallback
  }

  /** What an endpoint returns when it does not raise: the unwrapped value,
      the error body it echoes back, or `None`. */
  datatype Reply<+T> = Value(value: T) | Echoed(body: Json) | Nothing

  /** What an endpoint returns on the fallback arm. */
  datatype OnFallback = EchoBody | ReturnNone

  /** The outcome of one endpoint: `unwrap` is what the 200 arm does with
      the body (and may raise). */
  function Outcome<T>(resp: Response, checksNotFound: bool, onFallback: OnFallback,
                      unwrap: Json -> Result<T, Failure>): (r: Result<Reply<T>, Failure>)
    ensures resp.status == Ok ==>
      r == match unwrap(resp.body) case Success(v) => Success(Value(v)) case Failure(e) => Failure(e)
    ensures Route(resp.status, checksNotFound).Raise? ==> r == Failure(Route(resp.status, checksNotFound).failure)
    ensures Route(resp.status, checksNotFound) == Fallback ==>
      r == Success(if onFallback == EchoBody then Echoed(resp.body) else Nothing)
  {
    match Route(resp.status, checksNotFound)
    case Unwrap =>
      var v :- unwrap(resp.body);
      Success(Value(v))
    case Raise(e) => Failure(e)
    case Fallback => Success(if onFallback == EchoBody then Echoed(resp.body) else Nothing)
  }

  /** `self.error` after an endpoint has seen `resp`: the body on the
      fallback arm, unchanged otherwise. */
  function ErrorAfter(error: Option<Json>, resp: Response, checksNotFound: bool): (e: Option<Json>)
    ensures e != error ==> e == Some(resp.body) && Route(resp.status, checksNotFound) == Fallback
    ensures Route(resp.status, checksNotFound) == Fallback ==> e == Some(resp.body)
  {
    if Route(resp.status, checksNotFound) == Fallback then Some(resp.body) else error
  }

  // ---------------------------------------------------------------------
  // The 200 arms

  /** `r.json()["data"]`: the value of the body's last "data" entry, KeyError
      when there is none, TypeError when the body is not a dict. */
  function Data(body: Json): (r: Result<Json, Failure>)
    ensures !body.JObj? ==> r == Failure(TypeError)
    ensures body.JObj? ==> (r.Success? <==> Mentions(body.fields, {"data"}))
    ensures body.JObj? && r.Failure? ==> r.error == KeyError(JStr("data"))
    ensures r.Success? ==>
      exists i :: 0 <= i < |body.fields| && body.fields[i] == ("data", r.value) &&
                  forall j :: i < j < |body.fields| ==> body.fields[j].0 != "data"
  {
    if body.JObj? then
      LastEntryIsLastWrite(body.fields, {"data"});
      Subscript(body, "data")
    else
      Subscript(body, "data")
  }

  /** `Waypoint(r.json()["data"])` (get_waypoint). */
  function WaypointInBody(body: Json): (r: Result<WaypointRecord, Failure>)
    ensures r.Success? <==> Data(body).Success? && Data(body).value.JObj?
    ensures r.Success? ==> r.value == WaypointByLastWrite(Data(body).value.fields)
  {
    var data :- Data(body);
    WaypointOf(data)
  }

  /** `Ship(symbol=ship["symbol"], ship_info=ship)`: the symbol is looked
      up before the Ship is built. */
  function ShipWithOwnSymbol(ship: Json): (r: Result<ShipRecord, Failure>)
    ensures Subscript(ship, "symbol").Failure? ==> r == Failure(Subscript(ship, "symbol").error)
    ensures Subscript(ship, "symbol").Success? && !Truthy(Subscript(ship, "symbol").value) ==>
      r == Failure(ShipSymbolNotDefined)
    ensures r.Success? <==>
      && Subscript(ship, "symbol").Success? && Truthy(Subscript(ship, "symbol").value)
      && ship.JObj? && NavsHydrate(ship.fields)
    ensures r.Success? ==> r.value == ShipByLastWrite(Subscript(ship, "symbol").value, ship.fields)
  {
    var symbol :- Subscript(ship, "symbol");
    ShipOf(symbol, ship)
  }

  /** The 200 arm of `get_ship`: `data` must be a dict with a truthy
      "symbol" whose "nav" entries hydrate; the Ship is its last-write
      record under that symbol. The exceptions come in the order the
      source meets them: `["data"]`, `["symbol"]`, the symbol check, the
      "nav" entries. */
  function ShipInBody(body: Json): (r: Result<ShipRecord, Failure>)
    ensures Data(body).Failure? ==> r == Failure(Data(body).error)
    ensures Data(body).Success? && Subscript(Data(body).value, "symbol").Failure? ==>
      r == Failure(Subscript(Data(body).value, "symbol").error)
    ensures Data(body).Success? && Subscript(Data(body).value, "symbol").Success? &&
            !Truthy(Subscript(Data(body).value, "symbol").value) ==>
      r == Failure(ShipSymbolNotDefined)
    ensures r.Success? <==>
      && Data(body).Success? && Data(body).value.JObj?
      && Subscript(Data(body).value, "symbol").Success? && Truthy(Subscript(Data(body).value, "symbol").value)
      && NavsHydrate(Data(body).value.fields)
    ensures r.Success? ==>
      r.value == ShipByLastWrite(Subscript(Data(body).value, "symbol").value, Data(body).value.fields)
  {
    var data :- Data(body);
    ShipWithOwnSymbol(data)
  }

  /** The 200 arm of `list_ships`: one Ship per item of `data`, in order. */
  function ShipListInBody(body: Json): (r: Result<seq<ShipRecord>, Failure>)
    ensures r.Success? ==> Data(body).Success? && Iterate(Data(body).value).Success?
    ensures r.Success? ==> |r.value| == |Iterate(Data(body).value).value|
  {
    var data :- Data(body);
    var items :- Iterate(data);
    HydrateAll(ShipWithOwnSymbol, items)
  }

  /** The 200 arm of `list_systems`: one System per item of `data`, in
      order. */
  function SystemListInBody(body: Json): (r: Result<seq<SystemRecord>, Failure>)
    ensures r.Success? ==> Data(body).Success? && Iterate(Data(body).value).Success?
    ensures r.Success? ==> |r.value| == |Iterate(Data(body).value).value|
  {
    var data :- Data(body);
    var items :- Iterate(data);
    HydrateAll(SystemOf, items)
  }

  /** The 200 arm of `purchase_ship`: the Ship under the top-level "ship"
      key, then the credits under the top-level "agent" key. */
  function PurchaseInBody(body: Json): (r: Result<(ShipRecord, Json), Failure>)
    ensures r.Success? <==>
      && Subscript(body, "ship").Success? && ShipWithOwnSymbol(Subscript(body, "ship").value).Success?
      && Subscript(body, "agent").Success? && Subscript(Subscript(body, "agent").value, "credits").Success?
    ensures r.Success? ==> Subscript(Subscript(body, "agent").value, "credits") == Success(r.value.1)
    ensures r.Success? ==> ShipWithOwnSymbol(Subscript(body, "ship").value) == Success(r.value.0)
    // The exceptions, in the order the source meets them.
    ensures Subscript(body, "ship").Failure? ==> r == Failure(Subscript(body, "ship").error)
    ensures Subscript(body, "ship").Success? && ShipWithOwnSymbol(Subscript(body, "ship").value).Failure? ==>
      r == Failure(ShipWithOwnSymbol(Subscript(body, "ship").value).error)
    ensures Subscript(body, "ship").Success? && ShipWithOwnSymbol(Subscript(body, "ship").value).Success? &&
            Subscript(body, "agent").Failure? ==>
      r == Failure(Subscript(body, "agent").error)
    ensures Subscript(body, "ship").Success? && ShipWithOwnSymbol(Subscript(body, "ship").value).Success? &&
            Subscript(body, "agent").Success? && Subscript(Subscript(body, "agent").value, "credits").Failure? ==>
      r == Failure(Subscript(Subscript(body, "agent").value, "credits").error)
  {
    var shipInfo :- Subscript(body, "ship");
    var ship :- ShipWithOwnSymbol(shipInfo);
    var agent :- Subscript(body, "agent");
    var credits :- Subscript(agent, "credits");
    Success((ship, credits))
  }

  /** `accept_contract` (and its two twins): 1 on 200, 0 on the fallback
      arm; the body is neither stored nor returned. */
  function ContractAction(status: int): (r: Result<int, Failure>)
    ensures r == Success(1) <==> status == Ok
    ensures r == Success(0) <==> Route(status, true) == Fallback
    ensures r.Failure? <==> Route(status, true).Raise?
    ensures r.Failure? ==> r.error == Route(status, true).failure
  {
    match Route(status, true)
    case Unwrap => Success(1)
    case Raise(e) => Failure(e)
    case Fallback => Success(0)
  }

  // ---------------------------------------------------------------------
  // Properties

  /** Every status code selects exactly one arm, and the 404 arm is the only
      one whose presence depends on the endpoint. */
  lemma NotFoundArmIsTheOnlyDifference(status: int)
    ensures status != NotFound ==> Route(status, true) == Route(status, false)
    ensures Route(NotFound, true) == Raise(ResourceNotFound)
    ensures Route(NotFound, false) == Fallback
  {
  }

  /** `register_agent` adds a 409 arm to the chain of `get_agent`; in
      particular it has no 404 arm either. */
  lemma RegisterRouteExtendsRoute(status: int, callsign: string)
    ensures RegisterRoute(status, callsign) ==
      if status == Conflict then Raise(AgentSymbolTaken(callsign)) else Route(status, false)
  {
  }

  /** The 200 arm leaves `self.error` alone; so do the raising arms. */
  lemma ErrorWrittenOnlyOnFallback(error: Option<Json>, resp: Response, checksNotFound: bool)
    ensures Route(resp.status, checksNotFound) != Fallback ==> ErrorAfter(error, resp, checksNotFound) == error
    ensures resp.status == Ok ==> ErrorAfter(error, resp, checksNotFound) == error
  {
  }

  /** `list_ships` answers one Ship per item of `data`, in order, each
      built from its item and named by the item's own "symbol". */
  lemma {:induction false} ShipListFollowsData(body: Json)
    requires ShipListInBody(body).Success?
    ensures var items := Iterate(Data(body).value).value;
      var ships := ShipListInBody(body).value;
      |ships| == |items| &&
      forall i :: 0 <= i < |items| ==>
        ShipWithOwnSymbol(items[i]) == Success(ships[i]) && ships[i].symbol == Subscript(items[i], "symbol").value
  {
    var items := Iterate(Data(body).value).value;
    HydrateAllItemwise(ShipWithOwnSymbol, items);
  }

  /** `list_ships` raises exactly when some item does not make a Ship, and
      then with the exception of the first such item. */
  lemma {:induction false} ShipListFailsAtFirstBadItem(body: Json)
    requires Data(body).Success? && Iterate(Data(body).value).Success?
    ensures var items := Iterate(Data(body).value).value;
      ShipListInBody(body).Failure? <==> exists i :: 0 <= i < |items| && ShipWithOwnSymbol(items[i]).Failure?
    ensures var items := Iterate(Data(body).value).value;
      ShipListInBody(body).Failure? ==>
        exists i :: 0 <= i < |items| && ShipWithOwnSymbol(items[i]) == Failure(ShipListInBody(body).error) &&
                    forall j :: 0 <= j < i ==> ShipWithOwnSymbol(items[j]).Success?
  {
    HydrateAllItemwise(ShipWithOwnSymbol, Iterate(Data(body).value).value);
  }

  /** Two ship objects under `data` give two Ships, in the same order,
      each with the symbol of its own object. */
  lemma TwoShips(a: Json, b: Json, body: Json)
    requires body == JObj([("data", JArr([a, b]))])
    requires ShipWithOwnSymbol(a).Success? && ShipWithOwnSymbol(b).Success?
    ensures ShipListInBody(body) == Success([ShipWithOwnSymbol(a).value, ShipWithOwnSymbol(b).value])
    ensures ShipListInBody(body).value[0].symbol == Subscript(a, "symbol").value
    ensures ShipListInBody(body).value[1].symbol == Subscript(b, "symbol").value
  {
    assert Data(body) == Success(JArr([a, b])) by {
      LastWriteWins(body.fields, {"data"}, 0);
    }
    var items := [a, b];
    var x, y := ShipWithOwnSymbol(a).value, ShipWithOwnSymbol(b).value;
    assert items[..0] == [] && items[..2] == items;
    assert ShipWithOwnSymbol(items[0]) == Success(x) && ShipWithOwnSymbol(items[1]) == Success(y);
    HydrateAllPrefix(ShipWithOwnSymbol, items, 0);
    assert [] + [x] == [x] && [x] + [y] == [x, y];
    HydrateAllPrefix(ShipWithOwnSymbol, items, 1);
    assert Iterate(JArr(items)) == Success(items);
  }

  /** `get_ship` and `list_ships` build a ship object alike: the ship one
      body holds under `data` is the one a listing of that object alone
      answers, and both raise the same exception. */
  lemma ShipAloneIsListedAlike(ship: Json)
    ensures ShipListInBody(JObj([("data", JArr([ship]))])) ==
      match ShipInBody(JObj([("data", ship)]))
      case Success(s) => Success([s])
      case Failure(e) => Failure(e)
  {
    var items := [ship];
    var one, list := JObj([("data", ship)]), JObj([("data", JArr(items))]);
    assert Data(one) == Success(ship) by {
      LastWriteWins(one.fields, {"data"}, 0);
    }
    assert Data(list) == Success(JArr(items)) by {
      LastWriteWins(list.fields, {"data"}, 0);
    }
    assert ShipInBody(one) == ShipWithOwnSymbol(ship);
    assert items[..0] == [] && items[..1] == items;
    HydrateAllPrefix(ShipWithOwnSymbol, items, 0);
    assert HydrateAll(ShipWithOwnSymbol, items[..0]) == Success([]);
    assert Iterate(JArr(items)) == Success(items);
    assert ShipListInBody(list) == HydrateAll(ShipWithOwnSymbol, items);
    if ShipWithOwnSymbol(ship).Success? {
      assert [] + [ShipWithOwnSymbol(ship).value] == [ShipWithOwnSymbol(ship).value];
    }
  }

  /** `list_systems` answers one System per item of `data`, in order. */
  lemma {:induction false} SystemListFollowsData(body: Json)
    requires SystemListInBody(body).Success?
    ensures var items := Iterate(Data(body).value).value;
      var systems := SystemListInBody(body).value;
      |systems| == |items| &&
      forall i :: 0 <= i < |items| ==>
        SystemOf(items[i]) == Success(systems[i]) && items[i].JObj? &&
        WaypointListsHydrate(items[i].fields) && systems[i] == SystemByLastWrite(items[i].fields)
  {
    var items := Iterate(Data(body).value).value;
    HydrateAllItemwise(SystemOf, items);
  }

  /** A ship body wrapped in the `data` envelope, as every other endpoint
      expects, is not what `purchase_ship` reads: it raises KeyError for the
      top-level "ship" key. */
  lemma PurchaseReadsTopLevelKeys(inner: Json, body: Json)
    requires body == JObj([("data", inner)])
    ensures PurchaseInBody(body) == Failure(KeyError(JStr("ship")))
  {
    assert Subscript(body, "ship").Failure?;
  }
}
