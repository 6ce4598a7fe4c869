/** The flight-traffic gateway tool: checks its API key, asks the flight
    data service for arrivals at an airport, and normalises each arrival.
    The service call is a parameter. */
module FlightLambda {
  import opened Optional
  import opened Text
  import opened PyJson
  import opened Gateway

  /** The name under which the gateway invokes this tool. */
  const ToolId := "get_flight_traffic"

  /** The key value shipped in the deployment template, which counts as no key. */
  const PlaceholderKey := "your_aviationstack_api_key_here"

  /** How many arrivals one request asks for. */
  const ArrivalLimit := 10

  const MissingKeyMessage :=
    "AviationStack API key not configured. Please add AVIATIONSTACK_API_KEY to Lambda environment"
  const KeyNote := "Get a free API key at https://aviationstack.com/"
  const ArrivalsNote :=
    "Showing recent/upcoming arrivals. High arrival count indicates increased rental demand."

  /** The query parameters of the arrivals request. */
  datatype FlightQuery = FlightQuery(accessKey: string, arrIata: string, limit: int)

  /** One normalised arrival; each field is whatever the service sent, or
      `"N/A"`. */
  datatype Arrival = Arrival(flightNumber: Json, airline: Json, departureAirport: Json,
                             departureCity: Json, arrivalTime: Json, status: Json)

  /** The tool's result: an error with the upper-cased airport and an empty
      flight list (plus a note when the key is missing), or the arrivals. */
  datatype FlightReport =
    | NoFlights(error: string, airport: string, keyNote: Option<string>)
    | Arrivals(airport: string, arrivals: seq<Arrival>, totalShown: nat, note: string)

  /** Whether the configured key is usable: present, non-empty and not the
      placeholder. */
  predicate KeyConfigured(apiKey: Option<string>) {
    apiKey.Some? && apiKey.value != "" && apiKey.value != PlaceholderKey
  }

  /** `flight.get(outer, {}).get(inner, "N/A")`. */
  function Field(flight: Json, outer: string, inner: string): Py<Json> {
    Nested(flight, outer, inner, Str("N/A"))
  }

  /** The nested entries the normalisation reads through are dicts or
      absent. */
  predicate Readable(f: map<string, Json>) {
    && DictOrAbsent(f, "flight") && DictOrAbsent(f, "airline")
    && DictOrAbsent(f, "departure") && DictOrAbsent(f, "arrival")
  }

  /** Normalise one flight record of the service's `data` list, reading the
      fields in the order the tool lists them. */
  function ToArrival(flight: Json): (r: Py<Arrival>)
    ensures r.Ok? <==> flight.Obj? && Readable(flight.fields)
    ensures r.Ok? ==> var f := flight.fields;
      r.value == Arrival(Inner(f, "flight", "iata", Str("N/A")), Inner(f, "airline", "name", Str("N/A")),
                         Inner(f, "departure", "iata", Str("N/A")), Inner(f, "departure", "airport", Str("N/A")),
                         Inner(f, "arrival", "scheduled", Str("N/A")), Lookup(f, "flight_status", Str("N/A")))
    ensures !flight.Obj? ==> r == Raised(NoAttribute(flight, "get"))
  {
    if !flight.Obj? then Raised(NoAttribute(flight, "get"))
    else
      var f := flight.fields;
      var number :- Field(flight, "flight", "iata");
      var airline :- Field(flight, "airline", "name");
      var departure := if "departure" in f then f["departure"] else Obj(map[]);
      if !departure.Obj? then Raised(NoAttribute(departure, "get"))
      else
        var d := departure.fields;
        var arrival :- Field(flight, "arrival", "scheduled");
        Ok(Arrival(number, airline, Lookup(d, "iata", Str("N/A")), Lookup(d, "airport", Str("N/A")), arrival, Lookup(f, "flight_status", Str("N/A"))))
  }

  /** The arrivals loop: each flight normalised, in order; the first flight
      that cannot be read raises. */
  function ToArrivals(flights: seq<Json>): (r: Py<seq<Arrival>>)
    ensures r.Ok? ==> |r.value| == |flights|
    ensures r.Ok? ==> forall i :: 0 <= i < |flights| ==> ToArrival(flights[i]) == Ok(r.value[i])
    ensures r.Raised? ==> exists i :: 0 <= i < |flights| && ToArrival(flights[i]) == Raised(r.text)
                                      && forall j :: 0 <= j < i ==> ToArrival(flights[j]).Ok?
  {
    MapAll(flights, ToArrival)
  }

  /** The part of `get_flight_traffic` inside its `try`, once the service has
      answered with the decoded `data`. */
  function ReadArrivals(data: Json, airport: string): (r: Py<FlightReport>)
    ensures r.Ok? && r.value.Arrivals? ==> r.value.totalShown == |r.value.arrivals| && r.value.airport == airport
    ensures r.Ok? && r.value.NoFlights? ==> r.value.airport == airport && r.value.keyNote.None?
    ensures r.Ok? && r.value.Arrivals? ==>
      && data.Obj? && "error" !in data.fields
      && var flights := Lookup(data.fields, "data", Arr([]));
         flights.Arr? ==> && |r.value.arrivals| == |flights.items|
                          && forall i :: 0 <= i < |flights.items| ==> ToArrival(flights.items[i]) == Ok(r.value.arrivals[i])
    ensures data.Obj? && "error" in data.fields && data.fields["error"].Obj? ==>
      r == Ok(NoFlights("API Error: " + Show(Lookup(data.fields["error"].fields, "info", Str("Unknown error"))), airport, None))
    ensures data.Obj? && "error" in data.fields && !data.fields["error"].Obj? ==> r.Raised?
    ensures data.Obj? && "error" !in data.fields && Lookup(data.fields, "data", Arr([])).Arr? ==>
      var flights := Lookup(data.fields, "data", Arr([])).items;
      && (r.Ok? <==> forall i :: 0 <= i < |flights| ==> ToArrival(flights[i]).Ok?)
      && (r.Ok? ==> r.value.Arrivals? && r.value.totalShown == |flights| && r.value.note == ArrivalsNote)
      && (r.Raised? ==> exists i :: 0 <= i < |flights| && ToArrival(flights[i]) == Raised(r.text))
  {
    var hasError :- Has(data, "error");
    if hasError then
      var err :- Item(data, "error");
      var info :- Get(err, "info", Str("Unknown error"));
      Ok(NoFlights("API Error: " + Show(info), airport, None))
    else
      var flights :- Get(data, "data", Arr([]));
      var items :- Elements(flights, NoAttribute(Str(""), "get"));
      var arrivals :- ToArrivals(items);
      Ok(Arrivals(airport, arrivals, |arrivals|, ArrivalsNote))
  }

  /** `get_flight_traffic`. The airport must be a string: `upper()` on any
      other value raises, and that raise escapes the tool because the error
      answers call `upper()` again. */
  function FlightTraffic(airportCode: Json, apiKey: Option<string>, fetch: FlightQuery -> Transport): (r: Py<FlightReport>)
    ensures !airportCode.Str? ==> r == Raised(NoAttribute(airportCode, "upper"))
    ensures airportCode.Str? ==> r.Ok? && r.value.airport == Upper(airportCode.s)
    ensures airportCode.Str? && !KeyConfigured(apiKey) ==>
      r == Ok(NoFlights(MissingKeyMessage, Upper(airportCode.s), Some(KeyNote)))
    ensures r.Ok? && r.value.Arrivals? ==> r.value.totalShown == |r.value.arrivals|
    ensures airportCode.Str? && KeyConfigured(apiKey) ==>
      var airport := Upper(airportCode.s);
      var reply := fetch(FlightQuery(apiKey.value, airport, ArrivalLimit));
      && (reply.FetchFailed? ==> r == Ok(NoFlights("Failed to fetch flight data: " + reply.reason, airport, None)))
      && (reply.FetchRaised? ==> r == Ok(NoFlights("Error: " + reply.reason, airport, None)))
      && (reply.Received? && ReadArrivals(reply.body, airport).Ok? ==> r == ReadArrivals(reply.body, airport))
      && (reply.Received? && ReadArrivals(reply.body, airport).Raised? ==>
            r == Ok(NoFlights("Error: " + ReadArrivals(reply.body, airport).text, airport, None)))
  {
    if !airportCode.Str? then Raised(NoAttribute(airportCode, "upper"))
    else
      var airport := Upper(airportCode.s);
      if !KeyConfigured(apiKey) then Ok(NoFlights(MissingKeyMessage, airport, Some(KeyNote)))
      else
        match fetch(FlightQuery(apiKey.value, airport, ArrivalLimit))
        case FetchFailed(reason) => Ok(NoFlights("Failed to fetch flight data: " + reason, airport, None))
        case FetchRaised(reason) => Ok(NoFlights("Error: " + reason, airport, None))
        case Received(data) =>
          match ReadArrivals(data, airport)
          case Ok(report) => Ok(report)
          case Raised(text) => Ok(NoFlights("Error: " + text, airport, None))
  }

  /** Without a usable key the service is never asked: the result does not
      depend on what it would answer. */
  lemma NoKeyNoRequest(airportCode: Json, apiKey: Option<string>, f: FlightQuery -> Transport, g: FlightQuery -> Transport)
    requires !KeyConfigured(apiKey)
    ensures FlightTraffic(airportCode, apiKey, f) == FlightTraffic(airportCode, apiKey, g)
  {
  }

  /** The request asks for at most `ArrivalLimit` arrivals at the upper-cased
      airport with the configured key, and the service's `error` object is
      reported with its `info`. */
  lemma UpstreamError(code: string, key: string, info: string, fetch: FlightQuery -> Transport)
    requires KeyConfigured(Some(key))
    requires fetch(FlightQuery(key, Upper(code), ArrivalLimit)) == Received(Obj(map["error" := Obj(map["info" := Str(info)])]))
    ensures FlightTraffic(Str(code), Some(key), fetch) == Ok(NoFlights("API Error: " + info, Upper(code), None))
  {
  }

  /** Each arrival field is the nested value when both keys are present and
      `"N/A"` when either is absent. */
  lemma ArrivalDefaults(f: map<string, Json>)
    requires Readable(f)
    ensures ToArrival(Obj(f)).Ok?
    ensures var a := ToArrival(Obj(f)).value;
      && ("flight" in f && "iata" in f["flight"].fields ==> a.flightNumber == f["flight"].fields["iata"])
      && (!("flight" in f && "iata" in f["flight"].fields) ==> a.flightNumber == Str("N/A"))
      && ("airline" in f && "name" in f["airline"].fields ==> a.airline == f["airline"].fields["name"])
      && (!("airline" in f && "name" in f["airline"].fields) ==> a.airline == Str("N/A"))
      && ("departure" in f && "iata" in f["departure"].fields ==> a.departureAirport == f["departure"].fields["iata"])
      && (!("departure" in f && "iata" in f["departure"].fields) ==> a.departureAirport == Str("N/A"))
      && ("departure" in f && "airport" in f["departure"].fields ==> a.departureCity == f["departure"].fields["airport"])
      && (!("departure" in f && "airport" in f["departure"].fields) ==> a.departureCity == Str("N/A"))
      && ("arrival" in f && "scheduled" in f["arrival"].fields ==> a.arrivalTime == f["arrival"].fields["scheduled"])
      && (!("arrival" in f && "scheduled" in f["arrival"].fields) ==> a.arrivalTime == Str("N/A"))
      && ("flight_status" in f ==> a.status == f["flight_status"])
      && ("flight_status" !in f ==> a.status == Str("N/A"))
  {
  }

  /** `lambda_handler`: dispatch on the tool name, require a truthy
      `airport_code`, and wrap the tool's result; anything that raises
      becomes a 500. */
  function Handler(event: Json, custom: Option<map<string, string>>, apiKey: Option<string>,
                   fetch: FlightQuery -> Transport): (r: Envelope<FlightReport>)
    ensures WellFormed(r)
    ensures ToolName(custom) != ToolId ==> r == UnknownTool(ToolName(custom))
    ensures ToolName(custom) == ToolId && event.Obj? && !Truthy(Param(event, "airport_code").value)
            ==> r == Envelope(400, Failure("airport_code parameter is required"))
    ensures r.statusCode == 500 ==> exists text :: r == InternalError(text)
    ensures r.statusCode == 200 ==>
      && event.Obj? && "airport_code" in event.fields && event.fields["airport_code"].Str?
      && FlightTraffic(event.fields["airport_code"], apiKey, fetch) == Ok(r.body.result)
      && r.body.result.airport == Upper(event.fields["airport_code"].s)
    ensures (ToolName(custom) == ToolId && event.Obj? && "airport_code" in event.fields
             && event.fields["airport_code"].Str? && event.fields["airport_code"].s != "") ==>
      r == Envelope(200, ToolResult(FlightTraffic(event.fields["airport_code"], apiKey, fetch).value))
  {
    var tool := ToolName(custom);
    if tool != ToolId then UnknownTool(tool)
    else
      match Param(event, "airport_code")
      case Raised(text) => InternalError(text)
      case Ok(airportCode) =>
        if !Truthy(airportCode) then Envelope(400, Failure("airport_code parameter is required"))
        else
          match FlightTraffic(airportCode, apiKey, fetch)
          case Raised(text) => InternalError(text)
          case Ok(report) => Envelope(200, ToolResult(report))
  }

  /** A call to this tool with a non-empty airport code string is answered
      with a 200 carrying the arrivals report, whatever else the event holds. */
  lemma ValidCall(code: string, event: map<string, Json>, custom: Option<map<string, string>>,
                  apiKey: Option<string>, fetch: FlightQuery -> Transport)
    requires ToolName(custom) == ToolId && code != ""
    ensures Handler(Obj(event["airport_code" := Str(code)]), custom, apiKey, fetch)
         == Envelope(200, ToolResult(FlightTraffic(Str(code), apiKey, fetch).value))
  {
    var e := Obj(event["airport_code" := Str(code)]);
    assert Param(e, "airport_code") == Ok(Str(code));
  }

  /** A truthy airport code that is not a string ends in a 500 naming the
      missing `upper`, whether or not a key is configured. */
  lemma NonStringAirport(code: Json, custom: Option<map<string, string>>, apiKey: Option<string>,
                         fetch: FlightQuery -> Transport)
    requires ToolName(custom) == ToolId
    requires Truthy(code) && !code.Str?
    ensures Handler(Obj(map["airport_code" := code]), custom, apiKey, fetch)
         == InternalError(NoAttribute(code, "upper"))
  {
  }
}
