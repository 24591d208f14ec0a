/** `register_agent` as a value: the session attributes it writes, the
    headquarters lookup it sends, and the exception it raises. The agent's
    answer and the answer to the headquarters lookup (`get_waypoint`) are
    inputs. The method as written stores `Waypoint(get_waypoint(...))`, but
    `get_waypoint` already answers a Waypoint on 200, which has no `keys()`:
    a registration whose lookup succeeds always ends in AttributeError. The
    corrected registration stores the lookup's answer as it is, as the
    token-based constructor does. */
module Registration {
  import opened Wrappers
  import opened JsonValues
  import opened Records
  import opened Symbols
  import opened Dispatch

  /** The attributes of a SpaceTrader, as a value; `headquarters` holds
      what the headquarters lookup answered (a Waypoint or an echoed body). */
  datatype Session = Session(
    token: Option<Json>,
    callsign: Option<Json>,
    headquarters: Option<Reply<WaypointRecord>>,
    startingFaction: Option<Json>,
    credits: Option<Json>,
    error: Option<Json>)

  /** The path `get_waypoint` requests, relative to the API root. */
  function WaypointPath(system: string, waypoint: string): string {
    "systems/" + system + "/waypoints/" + waypoint + "/"
  }

  /** Where the two arguments sit in the path. */
  lemma WaypointPathLayout(system: string, waypoint: string)
    ensures var path := WaypointPath(system, waypoint);
      && |path| == |system| + |waypoint| + 20
      && path[8..8 + |system|] == system
      && path[8 + |system|] == '/'
      && path[19 + |system|..|path| - 1] == waypoint
  {
    var a, b := "systems/" + system, "/waypoints/" + waypoint + "/";
    assert WaypointPath(system, waypoint) == a + b;
    assert |a| == 8 + |system|;
    assert a[8..] == system;
    assert b[11..|b| - 1] == waypoint;
  }

  /** A path names one system and one waypoint: when system symbols have
      no slash, different lookups go to different paths. */
  lemma WaypointPathNamesItsArguments(system: string, waypoint: string, system': string, waypoint': string)
    requires '/' !in system && '/' !in system'
    requires WaypointPath(system, waypoint) == WaypointPath(system', waypoint')
    ensures system == system' && waypoint == waypoint'
  {
    WaypointPathLayout(system, waypoint);
    WaypointPathLayout(system', waypoint');
  }

  /** What a registration leaves behind: the session, the path of the
      headquarters lookup if one was sent, and the exception if one was
      raised. */
  datatype Registered = Registered(session: Session, lookup: Option<string>, result: Result<(), Failure>)

  /** `Waypoint(headquarters_info)` as written: a Waypoint object has no
      `keys()`, an echoed body is hydrated as a Waypoint. */
  function StoredAsWritten(answer: Reply<WaypointRecord>): (r: Result<Reply<WaypointRecord>, Failure>)
    ensures answer.Value? ==> r == Failure(AttributeError)
    ensures answer.Echoed? && answer.body.JObj? ==> r == Success(Value(WaypointByLastWrite(answer.body.fields)))
    ensures r.Success? ==> r.value.Value? && answer.Echoed?
  {
    match answer
    case Echoed(body) =>
      var w :- WaypointOf(body);
      Success(Value(w))
    case _ => Failure(AttributeError)
  }

  /** The corrected store: the lookup's answer as it is. */
  function StoredAsAnswered(answer: Reply<WaypointRecord>): Result<Reply<WaypointRecord>, Failure> {
    Success(answer)
  }

  /** The steps of `register_agent` in order; `store` is the step that
      turns the lookup's answer into the `headquarters` attribute. Each
      assignment happens before the next lookup that may raise. */
  function Register(s: Session, callsign: string, reg: Response, hq: Response,
                    store: Reply<WaypointRecord> -> Result<Reply<WaypointRecord>, Failure>): (out: Registered)
    ensures out.result.Success? ==> reg.status == Ok && out.lookup.Some?
    ensures reg.status != Ok ==> out.lookup == None && out.result.Failure?
    // A 200 whose body has no usable `data` raises before anything is stored.
    ensures reg.status == Ok && Data(reg.body).Failure? ==> out == Registered(s, None, Failure(Data(reg.body).error))
  {
    match RegisterRoute(reg.status, callsign)
    case Raise(e) => Registered(s, None, Failure(e))
    case Fallback => Registered(s.(error := Some(reg.body)), None, Failure(CouldNotRegisterAgent))
    case Unwrap =>
      match Data(reg.body)
      case Failure(e) => Registered(s, None, Failure(e))
      case Success(data) => Enroll(s, data, hq, store)
  }

  /** The 200 arm up to the headquarters lookup: token, callsign, and the
      headquarters system derived from the headquarters waypoint. */
  function Enroll(s: Session, data: Json, hq: Response,
                  store: Reply<WaypointRecord> -> Result<Reply<WaypointRecord>, Failure>): (out: Registered)
    ensures out.result.Success? ==> out.lookup.Some?
    // The token is stored first; a missing one raises with nothing stored.
    ensures Subscript(data, "token").Failure? ==> out == Registered(s, None, Failure(Subscript(data, "token").error))
    ensures Subscript(data, "token").Success? ==> out.session.token == Some(Subscript(data, "token").value)
    // Then the callsign; a missing one raises with only the token stored.
    ensures Subscript(data, "token").Success? && Subscript(data, "symbol").Failure? ==>
      out == Registered(s.(token := Some(Subscript(data, "token").value)), None, Failure(Subscript(data, "symbol").error))
    ensures Subscript(data, "token").Success? && Subscript(data, "symbol").Success? ==>
      out.session.callsign == Some(Subscript(data, "symbol").value)
    // The lookup is sent exactly when the headquarters names a system, to
    // the path of that system and that waypoint.
    ensures out.lookup.Some? <==>
      && Subscript(data, "token").Success? && Subscript(data, "symbol").Success?
      && Subscript(data, "headquarters").Success? && HeadquartersOf(Subscript(data, "headquarters").value).Success?
    ensures out.lookup.Some? ==>
      var waypoint := Subscript(data, "headquarters").value;
      out.lookup == Some(WaypointPath(HeadquartersOf(waypoint).value, waypoint.s))
    ensures out.lookup.None? ==>
      out.result.Failure? && out.session.headquarters == s.headquarters && out.session.startingFaction == s.startingFaction &&
      out.session.credits == s.credits && out.session.error == s.error
  {
    var token := Subscript(data, "token");
    if token.Failure? then Registered(s, None, Failure(token.error)) else
    var s1 := s.(token := Some(token.value));
    var symbol := Subscript(data, "symbol");
    if symbol.Failure? then Registered(s1, None, Failure(symbol.error)) else
    var s2 := s1.(callsign := Some(symbol.value));
    var waypoint := Subscript(data, "headquarters");
    if waypoint.Failure? then Registered(s2, None, Failure(waypoint.error)) else
    var system := HeadquartersOf(waypoint.value);
    if system.Failure? then Registered(s2, None, Failure(system.error)) else
    Settle(s2, data, WaypointPath(system.value, waypoint.value.s), hq, store)
  }

  /** The 200 arm from the headquarters lookup on: the headquarters, the
      starting faction and the credits. */
  function Settle(s: Session, data: Json, path: string, hq: Response,
                  store: Reply<WaypointRecord> -> Result<Reply<WaypointRecord>, Failure>): (out: Registered)
    ensures out.lookup == Some(path)
    ensures out.session.token == s.token && out.session.callsign == s.callsign
    ensures out.session.error == ErrorAfter(s.error, hq, true)
    ensures var answer := Outcome(hq, true, EchoBody, WaypointInBody);
      answer.Failure? ==> out == Registered(s.(error := ErrorAfter(s.error, hq, true)), Some(path), Failure(answer.error))
    ensures var answer := Outcome(hq, true, EchoBody, WaypointInBody);
      out.result.Success? <==>
        && answer.Success? && store(answer.value).Success?
        && Subscript(data, "startingFaction").Success? && Subscript(data, "credits").Success?
    ensures var answer := Outcome(hq, true, EchoBody, WaypointInBody);
      out.result.Success? ==>
        out.session == s.(error := ErrorAfter(s.error, hq, true), headquarters := Some(store(answer.value).value),
                          startingFaction := Some(Subscript(data, "startingFaction").value),
                          credits := Some(Subscript(data, "credits").value))
  {
    var answer := Outcome(hq, true, EchoBody, WaypointInBody);
    var s3 := s.(error := ErrorAfter(s.error, hq, true));
    if answer.Failure? then Registered(s3, Some(path), Failure(answer.error)) else
    var stored := store(answer.value);
    if stored.Failure? then Registered(s3, Some(path), Failure(stored.error)) else
    var s4 := s3.(headquarters := Some(stored.value));
    var faction := Subscript(data, "startingFaction");
    if faction.Failure? then Registered(s4, Some(path), Failure(faction.error)) else
    var s5 := s4.(startingFaction := Some(faction.value));
    var credits := Subscript(data, "credits");
    if credits.Failure? then Registered(s5, Some(path), Failure(credits.error)) else
    Registered(s5.(credits := Some(credits.value)), Some(path), Success(()))
  }

  /** `register_agent` as written. */
  function RegistrationAsWritten(s: Session, callsign: string, reg: Response, hq: Response): (out: Registered)
    ensures out.result.Success? ==> hq.status != Ok
  {
    Register(s, callsign, reg, hq, StoredAsWritten)
  }

  /** `register_agent` with the headquarters stored as the lookup answered. */
  function CorrectedRegistration(s: Session, callsign: string, reg: Response, hq: Response): (out: Registered)
    ensures out.result.Success? ==> reg.status == Ok && out.lookup.Some?
  {
    Register(s, callsign, reg, hq, StoredAsAnswered)
  }

  // ---------------------------------------------------------------------
  // Properties

  /** The registration answer the agent expects: a 200 whose `data` holds a
      token, a symbol, a headquarters waypoint with at least one dash, the
      starting faction and the credits. */
  predicate WellFormedAgent(reg: Response, data: Json, token: Json, symbol: Json, waypoint: string, faction: Json, credits: Json) {
    reg.status == Ok && Data(reg.body) == Success(data) &&
    Subscript(data, "token") == Success(token) && Subscript(data, "symbol") == Success(symbol) &&
    Subscript(data, "headquarters") == Success(JStr(waypoint)) && !DashFree(waypoint) &&
    Subscript(data, "startingFaction") == Success(faction) && Subscript(data, "credits") == Success(credits)
  }

  /** The corrected registration of a well-formed agent whose headquarters
      lookup succeeds fills in the whole session and looks up the
      headquarters in the system its symbol names. */
  lemma CorrectedRegistrationCompletes(s: Session, callsign: string, reg: Response, hq: Response,
                                       data: Json, token: Json, symbol: Json, waypoint: string, faction: Json, credits: Json)
    requires WellFormedAgent(reg, data, token, symbol, waypoint, faction, credits)
    requires hq.status == Ok && WaypointInBody(hq.body).Success?
    ensures var out := CorrectedRegistration(s, callsign, reg, hq);
      out.result == Success(()) &&
      out.lookup == Some(WaypointPath(HeadquartersSystem(waypoint).value, waypoint)) &&
      out.session == Session(Some(token), Some(symbol), Some(Value(WaypointInBody(hq.body).value)),
                             Some(faction), Some(credits), s.error)
  {
  }

  /** The conditions under which `register_agent` runs to its end: a 200
      whose `data` holds every key it reads, a headquarters string with a
      dash, and a lookup that does not raise. */
  predicate GoesThrough(reg: Response, hq: Response) {
    && reg.status == Ok && Data(reg.body).Success?
    && var data := Data(reg.body).value;
    && Subscript(data, "token").Success? && Subscript(data, "symbol").Success?
    && Subscript(data, "headquarters").Success? && HeadquartersOf(Subscript(data, "headquarters").value).Success?
    && Outcome(hq, true, EchoBody, WaypointInBody).Success?
    && Subscript(data, "startingFaction").Success? && Subscript(data, "credits").Success?
  }

  /** The corrected registration succeeds exactly when it goes through, and
      then stores every attribute it read, the lookup's answer as the
      headquarters (a Waypoint on 200, the echoed body on the fallback arm,
      where the body also becomes `error`), after looking the headquarters
      up in the system its symbol names. */
  lemma CorrectedRegistrationSucceeds(s: Session, callsign: string, reg: Response, hq: Response)
    ensures CorrectedRegistration(s, callsign, reg, hq).result.Success? <==> GoesThrough(reg, hq)
    ensures GoesThrough(reg, hq) ==>
      var data := Data(reg.body).value;
      var waypoint := Subscript(data, "headquarters").value;
      var out := CorrectedRegistration(s, callsign, reg, hq);
      && out.lookup == Some(WaypointPath(HeadquartersOf(waypoint).value, waypoint.s))
      && out.session == Session(Some(Subscript(data, "token").value), Some(Subscript(data, "symbol").value),
                                Some(Outcome(hq, true, EchoBody, WaypointInBody).value),
                                Some(Subscript(data, "startingFaction").value), Some(Subscript(data, "credits").value),
                                ErrorAfter(s.error, hq, true))
  {
  }

  /** As written, a registration succeeds only when the lookup fell back to
      an error dict, which then becomes both `error` and, hydrated, the
      headquarters Waypoint. */
  lemma AsWrittenSucceedsOnlyOnFallback(s: Session, callsign: string, reg: Response, hq: Response)
    requires RegistrationAsWritten(s, callsign, reg, hq).result.Success?
    ensures Route(hq.status, true) == Fallback && hq.body.JObj?
    ensures RegistrationAsWritten(s, callsign, reg, hq).session.headquarters == Some(Value(WaypointByLastWrite(hq.body.fields)))
    ensures RegistrationAsWritten(s, callsign, reg, hq).session.error == Some(hq.body)
  {
  }

  /** The finding: as written, the same registration raises AttributeError
      once the lookup has answered, with the token and callsign already
      stored and the headquarters, faction and credits left as they were. */
  lemma AsWrittenRaisesAfterLookup(s: Session, callsign: string, reg: Response, hq: Response,
                                   data: Json, token: Json, symbol: Json, waypoint: string, faction: Json, credits: Json)
    requires WellFormedAgent(reg, data, token, symbol, waypoint, faction, credits)
    requires hq.status == Ok && WaypointInBody(hq.body).Success?
    ensures var out := RegistrationAsWritten(s, callsign, reg, hq);
      out.result == Failure(AttributeError) &&
      out.lookup == Some(WaypointPath(HeadquartersSystem(waypoint).value, waypoint)) &&
      out.session == s.(token := Some(token), callsign := Some(symbol))
  {
  }

  /** A registration the server refuses stores nothing but, on the
      fallback arm, the error body; it never looks the headquarters up. */
  lemma RefusedRegistrationStoresOnlyError(s: Session, callsign: string, reg: Response, hq: Response)
    requires reg.status != Ok
    ensures var out := CorrectedRegistration(s, callsign, reg, hq);
      out.lookup == None &&
      (reg.status == Conflict ==> out == Registered(s, None, Failure(AgentSymbolTaken(callsign)))) &&
      (reg.status == Unauthorized ==> out == Registered(s, None, Failure(TokenError))) &&
      (reg.status != Conflict && reg.status != Unauthorized ==>
        out == Registered(s.(error := Some(reg.body)), None, Failure(CouldNotRegisterAgent)))
    ensures RegistrationAsWritten(s, callsign, reg, hq) == CorrectedRegistration(s, callsign, reg, hq)
  {
  }

  /** The headquarters "X1-AB-1" lies in the system "X1-AB". */
  lemma ExampleHeadquarters(waypoint: string)
    requires waypoint == "X1-AB-1"
    ensures HeadquartersSystem(waypoint) == Success("X1-AB")
  {
    var sector, system, number := "X1", "AB", "1";
    SystemOfThreePieces(sector, system, number);
    assert sector + [Dash] == "X1-";
    assert "X1-" + system == "X1-AB";
    assert "X1-AB" + [Dash] == "X1-AB-";
    assert "X1-AB-" + number == waypoint;
  }

  /** The lookup of "X1-AB-1" in "X1-AB". */
  lemma ExamplePath(waypoint: string)
    requires waypoint == "X1-AB-1"
    ensures WaypointPath("X1-AB", waypoint) == "systems/X1-AB/waypoints/X1-AB-1/"
  {
  }

  /** An example registration answer, for agent "TESTBOT", is well formed. */
  lemma ExampleAgent(reg: Response, data: Json, waypoint: string)
    requires waypoint == "X1-AB-1"
    requires data == JObj([("token", JStr("t")), ("symbol", JStr("TESTBOT")), ("headquarters", JStr(waypoint)),
                           ("startingFaction", JStr("COSMIC")), ("credits", JNum(1000))])
    requires reg == Response(Ok, JObj([("data", data)]))
    ensures WellFormedAgent(reg, data, JStr("t"), JStr("TESTBOT"), waypoint, JStr("COSMIC"), JNum(1000))
  {
    var f := data.fields;
    LastWriteWins(reg.body.fields, {"data"}, 0);
    LastWriteWins(f, {"token"}, 0);
    LastWriteWins(f, {"symbol"}, 1);
    LastWriteWins(f, {"headquarters"}, 2);
    LastWriteWins(f, {"startingFaction"}, 3);
    LastWriteWins(f, {"credits"}, 4);
    assert waypoint[2] == Dash;
  }

  /** An example registration: agent "TESTBOT" with
      headquarters "X1-AB-1" and 1000 credits. Corrected, it ends with 1000
      credits after looking up "systems/X1-AB/waypoints/X1-AB-1/"; as
      written, it raises AttributeError with no credits stored. */
  lemma ExampleRegistration(s: Session, reg: Response, hq: Response, data: Json, waypoint: string)
    requires s.credits == None
    requires waypoint == "X1-AB-1"
    requires data == JObj([("token", JStr("t")), ("symbol", JStr("TESTBOT")), ("headquarters", JStr(waypoint)),
                           ("startingFaction", JStr("COSMIC")), ("credits", JNum(1000))])
    requires reg == Response(Ok, JObj([("data", data)]))
    requires hq.status == Ok && WaypointInBody(hq.body).Success?
    ensures CorrectedRegistration(s, "TESTBOT", reg, hq).session.credits == Some(JNum(1000))
    ensures CorrectedRegistration(s, "TESTBOT", reg, hq).lookup == Some("systems/X1-AB/waypoints/X1-AB-1/")
    ensures RegistrationAsWritten(s, "TESTBOT", reg, hq).result == Failure(AttributeError)
    ensures RegistrationAsWritten(s, "TESTBOT", reg, hq).session.credits == None
  {
    ExampleAgent(reg, data, waypoint);
    ExampleHeadquarters(waypoint);
    ExamplePath(waypoint);
    CorrectedRegistrationCompletes(s, "TESTBOT", reg, hq, data, JStr("t"), JStr("TESTBOT"), waypoint,
                                   JStr("COSMIC"), JNum(1000));
    AsWrittenRaisesAfterLookup(s, "TESTBOT", reg, hq, data, JStr("t"), JStr("TESTBOT"), waypoint,
                               JStr("COSMIC"), JNum(1000));
  }
}
