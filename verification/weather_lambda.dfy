/** The weather-forecast gateway tool: resolves a place name to coordinates,
    asks for a daily forecast there, and turns the service's parallel daily
    arrays into one record per day. Both service calls are parameters. */
module WeatherLambda {
  import opened Optional
  import opened Text
  import opened PyJson
  import opened Gateway

  /** The name under which the gateway invokes this tool. */
  const ToolId := "get_weather_forecast"

  /** The forecast length used when the event gives none. */
  const DefaultDays := 7

  /** The longest forecast the tool asks for. */
  const MaxForecastDays := 16

  /** The query of the forecast request. */
  datatype ForecastQuery = ForecastQuery(latitude: Json, longitude: Json, forecastDays: int)

  /** The first geocoding match. */
  datatype Place = Place(latitude: Json, longitude: Json, name: Json)

  /** One day of the forecast, each field taken from the same index of the
      service's daily arrays. */
  datatype Day = Day(date: Json, tempMaxF: Json, tempMinF: Json, precipitationMm: Json,
                     precipitationProbability: Json, weatherCode: Json)

  /** The tool's result: an error with an empty forecast, or the forecast. */
  datatype WeatherReport =
    | NoForecast(error: string)
    | Forecast(location: Json, latitude: Json, longitude: Json, forecastDays: nat, forecast: seq<Day>)

  /** The forecast request for `days` days, capped at `MaxForecastDays`. */
  function ForecastRequest(place: Place, days: int): (q: ForecastQuery)
    ensures q.latitude == place.latitude && q.longitude == place.longitude
    ensures q.forecastDays <= MaxForecastDays
    ensures days <= MaxForecastDays ==> q.forecastDays == days
    ensures days >= MaxForecastDays ==> q.forecastDays == MaxForecastDays
  {
    ForecastQuery(place.latitude, place.longitude, if days < MaxForecastDays then days else MaxForecastDays)
  }

  /** The geocoding answer read as the tool reads it: no place when
      `results` is missing or falsy, else the coordinates and name of the
      first result. */
  function Locate(geo: Json): (r: Py<Option<Place>>)
    ensures geo.Obj? && ("results" !in geo.fields || !Truthy(geo.fields["results"])) ==> r == Ok(None)
    ensures !geo.Obj? ==> r.Raised?
    ensures geo.Obj? && "results" in geo.fields && geo.fields["results"].Arr? && geo.fields["results"].items != []
            && geo.fields["results"].items[0].Obj? ==>
      var f := geo.fields["results"].items[0].fields;
      "latitude" in f && "longitude" in f && "name" in f ==> r == Ok(Some(Place(f["latitude"], f["longitude"], f["name"])))
  {
    var results :- Get(geo, "results", Null);
    if !Truthy(results) then Ok(None)
    else
      var first :- At(results, 0);
      var latitude :- Item(first, "latitude");
      var longitude :- Item(first, "longitude");
      var name :- Item(first, "name");
      Ok(Some(Place(latitude, longitude, name)))
  }

  /** The six daily arrays the forecast zips, in the order of `Day`'s fields. */
  const DailyKeys := ["time", "temperature_2m_max", "temperature_2m_min", "precipitation_sum",
                      "precipitation_probability_max", "weathercode"]

  /** Each of the six daily arrays is present and a list of at least `n`
      values. */
  predicate HasColumns(daily: map<string, Json>, n: nat) {
    forall c :: 0 <= c < 6 ==> DailyKeys[c] in daily && daily[DailyKeys[c]].Arr? && n <= |daily[DailyKeys[c]].items|
  }

  /** The day made of the `i`-th value of each daily array. */
  function DayFromColumns(daily: map<string, Json>, i: nat): Day
    requires HasColumns(daily, i + 1)
  {
    Day(daily[DailyKeys[0]].items[i], daily[DailyKeys[1]].items[i], daily[DailyKeys[2]].items[i],
        daily[DailyKeys[3]].items[i], daily[DailyKeys[4]].items[i], daily[DailyKeys[5]].items[i])
  }

  /** `daily[key][i]`. */
  function Column(daily: Json, key: string, i: nat): Py<Json> {
    var column :- Item(daily, key);
    At(column, i)
  }

  /** Day `i` of the forecast, read in the order the tool lists the fields. */
  function DayAt(daily: Json, i: nat): (r: Py<Day>)
    ensures daily.Obj? && HasColumns(daily.fields, i + 1) ==> r == Ok(DayFromColumns(daily.fields, i))
    ensures daily.Obj? && "time" !in daily.fields ==> r == Raised("'time'")
    ensures r.Ok? ==> daily.Obj? && forall c :: 0 <= c < 6 ==> DailyKeys[c] in daily.fields
  {
    assert DailyKeys[0] == "time" && DailyKeys[1] == "temperature_2m_max" && DailyKeys[2] == "temperature_2m_min";
    assert DailyKeys[3] == "precipitation_sum" && DailyKeys[4] == "precipitation_probability_max";
    assert DailyKeys[5] == "weathercode";
    var date :- Column(daily, "time", i);
    var tempMax :- Column(daily, "temperature_2m_max", i);
    var tempMin :- Column(daily, "temperature_2m_min", i);
    var precipitation :- Column(daily, "precipitation_sum", i);
    var probability :- Column(daily, "precipitation_probability_max", i);
    var code :- Column(daily, "weathercode", i);
    Ok(Day(date, tempMax, tempMin, precipitation, probability, code))
  }

  /** The forecast loop over `range(n)`: day `i` at position `i`; the first
      day that cannot be read raises. */
  function Days(daily: Json, n: nat): (r: Py<seq<Day>>)
    ensures r.Ok? ==> |r.value| == n && forall i :: 0 <= i < n ==> DayAt(daily, i) == Ok(r.value[i])
    ensures r.Raised? ==> exists i :: 0 <= i < n && DayAt(daily, i) == Raised(r.text)
                                      && forall j :: 0 <= j < i ==> DayAt(daily, j).Ok?
  {
    if n == 0 then Ok([])
    else
      var head := Days(daily, n - 1);
      if head.Raised? then head.PropagateFailure()
      else
        var last := DayAt(daily, n - 1);
        if last.Raised? then last.PropagateFailure()
        else Ok(head.value + [last.value])
  }

  /** The forecast answer read as the tool reads it: one day per element of
      `daily.time`. */
  function ReadForecast(weather: Json): (r: Py<seq<Day>>)
    ensures r.Ok? ==> weather.Obj? && "daily" in weather.fields
    ensures weather.Obj? && "daily" in weather.fields && weather.fields["daily"].Obj? ==>
      var daily := weather.fields["daily"].fields;
      "time" in daily && daily["time"].Arr? && HasColumns(daily, |daily["time"].items|) ==>
        && r.Ok? && |r.value| == |daily["time"].items|
        && forall i :: 0 <= i < |r.value| ==> r.value[i] == DayFromColumns(daily, i)
  {
    var daily :- Item(weather, "daily");
    var times :- Item(daily, "time");
    var n :- Len(times);
    Days(daily, n)
  }

  /** Arrays at least as long as `daily.time` are zipped index by index into
      one day per element of `daily.time`. */
  lemma {:induction false} ZipsDailyArrays(daily: map<string, Json>, columns: seq<seq<Json>>, n: nat)
    requires |columns| == 6 && n <= |columns[0]|
    requires forall c :: 0 <= c < 6 ==> DailyKeys[c] in daily && daily[DailyKeys[c]] == Arr(columns[c])
    requires forall c :: 0 <= c < 6 ==> |columns[c]| >= |columns[0]|
    ensures var r := Days(Obj(daily), n);
      && r.Ok? && |r.value| == n
      && forall i :: 0 <= i < n ==>
           r.value[i] == Day(columns[0][i], columns[1][i], columns[2][i], columns[3][i], columns[4][i], columns[5][i])
  {
    if n > 0 {
      ZipsDailyArrays(daily, columns, n - 1);
      var i := n - 1;
      assert DailyKeys[0] == "time" && DailyKeys[1] == "temperature_2m_max" && DailyKeys[2] == "temperature_2m_min";
      assert DailyKeys[3] == "precipitation_sum" && DailyKeys[4] == "precipitation_probability_max";
      assert DailyKeys[5] == "weathercode";
      assert DayAt(Obj(daily), i)
          == Ok(Day(columns[0][i], columns[1][i], columns[2][i], columns[3][i], columns[4][i], columns[5][i]));
    }
  }

  /** The error answer for a failed service call. */
  function FetchError(t: Transport): string
    requires !t.Received?
  {
    if t.FetchFailed? then "Failed to fetch weather: " + t.reason else "Error: " + t.reason
  }

  /** `get_weather_forecast`: every failure inside it is answered with an
      error and an empty forecast. A location that is not a string fails in
      URL quoting. */
  function WeatherForecast(location: Json, days: int, geocode: string -> Transport,
                           forecast: ForecastQuery -> Transport): (r: WeatherReport)
    ensures !location.Str? ==> r == NoForecast("Error: quote_from_bytes() expected bytes")
    ensures r.Forecast? ==> r.forecastDays == |r.forecast|
    ensures location.Str? && geocode(location.s).Received? && Locate(geocode(location.s).body) == Ok(None)
            ==> r == NoForecast("Location '" + location.s + "' not found")
    ensures r.Forecast? ==>
      var place := Place(r.latitude, r.longitude, r.location);
      && location.Str? && geocode(location.s).Received? && Locate(geocode(location.s).body) == Ok(Some(place))
      && forecast(ForecastRequest(place, days)).Received?
      && ReadForecast(forecast(ForecastRequest(place, days)).body) == Ok(r.forecast)
    ensures location.Str? && geocode(location.s).Received? && Locate(geocode(location.s).body).Ok?
            && Locate(geocode(location.s).body).value.Some? ==>
      var place := Locate(geocode(location.s).body).value.value;
      var weather := forecast(ForecastRequest(place, days));
      weather.Received? && ReadForecast(weather.body).Ok? ==>
        r == Forecast(place.name, place.latitude, place.longitude, |ReadForecast(weather.body).value|,
                      ReadForecast(weather.body).value)
  {
    if !location.Str? then NoForecast("Error: quote_from_bytes() expected bytes")
    else
      var geo := geocode(location.s);
      if !geo.Received? then NoForecast(FetchError(geo))
      else
        match Locate(geo.body)
        case Raised(text) => NoForecast("Error: " + text)
        case Ok(found) =>
          if found.None? then NoForecast("Location '" + location.s + "' not found")
          else
            var place := found.value;
            var weather := forecast(ForecastRequest(place, days));
            if !weather.Received? then NoForecast(FetchError(weather))
            else
              match ReadForecast(weather.body)
              case Raised(text) => NoForecast("Error: " + text)
              case Ok(ds) => Forecast(place.name, place.latitude, place.longitude, |ds|, ds)
  }

  /** Asking for more than `MaxForecastDays` days is asking for that many. */
  lemma DaysAreCapped(location: Json, days: int, geocode: string -> Transport, forecast: ForecastQuery -> Transport)
    requires days >= MaxForecastDays
    ensures WeatherForecast(location, days, geocode, forecast)
         == WeatherForecast(location, MaxForecastDays, geocode, forecast)
  {
  }

  /** An unknown place is reported without asking for a forecast. */
  lemma NotFoundAsksNoForecast(location: string, days: int, geocode: string -> Transport,
                               f: ForecastQuery -> Transport, g: ForecastQuery -> Transport)
    requires geocode(location).Received? && Locate(geocode(location).body) == Ok(None)
    ensures WeatherForecast(Str(location), days, geocode, f) == WeatherForecast(Str(location), days, geocode, g)
                                                            == NoForecast("Location '" + location + "' not found")
  {
  }

  /** `lambda_handler`: dispatch on the tool name, require a truthy
      `location`, default `days` to 7, convert it with `int()`, and wrap the
      tool's result; anything that raises becomes a 500. */
  function Handler(event: Json, custom: Option<map<string, string>>, geocode: string -> Transport,
                   forecast: ForecastQuery -> Transport): (r: Envelope<WeatherReport>)
    ensures WellFormed(r)
    ensures ToolName(custom) != ToolId ==> r == UnknownTool(ToolName(custom))
    ensures ToolName(custom) == ToolId && event.Obj? && !Truthy(Param(event, "location").value)
            ==> r == Envelope(400, Failure("location parameter is required"))
    ensures r.statusCode == 500 ==> exists text :: r == InternalError(text)
    ensures r.statusCode == 200 ==>
      && event.Obj? && "location" in event.fields
      && var days := Lookup(event.fields, "days", Null);
         && ToInt(if days == Null then Int(DefaultDays) else days).Ok?
         && r.body.result == WeatherForecast(event.fields["location"], ToInt(if days == Null then Int(DefaultDays) else days).value,
                                             geocode, forecast)
  {
    var tool := ToolName(custom);
    if tool != ToolId then UnknownTool(tool)
    else if !event.Obj? then InternalError(NoAttribute(event, "get"))
    else
      var location := Param(event, "location").value;
      var days := Param(event, "days").value;
      if !Truthy(location) then Envelope(400, Failure("location parameter is required"))
      else
        match ToInt(if days == Null then Int(DefaultDays) else days)
        case Raised(text) => InternalError(text)
        case Ok(n) => Envelope(200, ToolResult(WeatherForecast(location, n, geocode, forecast)))
  }

  /** A missing or null `days` asks for the default of 7 days. */
  lemma DaysDefault(event: map<string, Json>, custom: Option<map<string, string>>,
                    geocode: string -> Transport, forecast: ForecastQuery -> Transport)
    requires "days" !in event || event["days"] == Null
    ensures Handler(Obj(event), custom, geocode, forecast)
         == Handler(Obj(event["days" := Int(DefaultDays)]), custom, geocode, forecast)
  {
    var withDays := event["days" := Int(DefaultDays)];
    assert "location" in event <==> "location" in withDays;
    assert "location" in event ==> event["location"] == withDays["location"];
  }

  /** A `days` value `int()` cannot convert ends in a 500 with its message. */
  lemma UnconvertibleDays(location: string, days: string, custom: Option<map<string, string>>,
                          geocode: string -> Transport, forecast: ForecastQuery -> Transport)
    requires ToolName(custom) == ToolId && location != "" && ParseInt(days).None?
    ensures Handler(Obj(map["location" := Str(location), "days" := Str(days)]), custom, geocode, forecast)
         == InternalError("invalid literal for int() with base 10: '" + days + "'")
  {
    var event := Obj(map["location" := Str(location), "days" := Str(days)]);
    assert Param(event, "location").value == Str(location) && Truthy(Str(location));
    assert Param(event, "days").value == Str(days) != Null;
    assert ToInt(Str(days)) == Raised("invalid literal for int() with base 10: '" + days + "'");
  }

  /** Without `days` the handler forecasts the default week. */
  lemma DefaultWeek(location: string, custom: Option<map<string, string>>,
                    geocode: string -> Transport, forecast: ForecastQuery -> Transport)
    requires ToolName(custom) == ToolId && location != ""
    ensures Handler(Obj(map["location" := Str(location)]), custom, geocode, forecast)
         == Envelope(200, ToolResult(WeatherForecast(Str(location), DefaultDays, geocode, forecast)))
  {
    var event := Obj(map["location" := Str(location)]);
    assert Param(event, "location").value == Str(location) && Truthy(Str(location));
    assert Param(event, "days").value == Null;
  }

  /** A `days` text with an underscore between digit runs is read as the
      number without it, as `int()` reads it. */
  lemma UnderscoredDays(location: string, a: string, b: string, custom: Option<map<string, string>>,
                        geocode: string -> Transport, forecast: ForecastQuery -> Transport)
    requires ToolName(custom) == ToolId && location != ""
    requires a != [] && b != [] && AllDigits(a) && AllDigits(b)
    ensures Handler(Obj(map["location" := Str(location), "days" := Str(a + "_" + b)]), custom, geocode, forecast)
         == Envelope(200, ToolResult(WeatherForecast(Str(location), DigitsValue(a + b), geocode, forecast)))
  {
    var event := Obj(map["location" := Str(location), "days" := Str(a + "_" + b)]);
    assert Param(event, "location").value == Str(location) && Truthy(Str(location));
    assert Param(event, "days").value == Str(a + "_" + b) != Null;
    UnderscoreIgnored(a, b);
    assert ToInt(Str(a + "_" + b)) == Ok(DigitsValue(a + b));
  }
}
