# Fleet demand assistant — a Dafny model of its decision logic

The system is a car-rental fleet assistant. An agent answers questions about
a vehicle inventory and about signals of rental demand. It does so through
a set of tools:

- queries over the vehicle table: the ZIP-code search, the filtered
  nationwide search grouped by location, and the per-ZIP summary;
- the public-holiday and local-event lookups;
- two gateway tools, flight arrivals and weather forecast, each a handler
  that dispatches on the tool name the gateway passes and wraps the result
  in a `{statusCode, body}` envelope;
- a proxy that forwards a chat prompt from the web client to the agent
  runtime and cleans up the reply.

A seed generator fills the table with mock vehicles.

This project models each of those pieces as pure Dafny functions over
immutable datatypes and proves what they promise. Everything outside the
decision logic is an input:

- the table is a sequence of `Vehicle` records, or a store whose calls fail;
- every HTTP service is a function from the request to its decoded answer,
  a `Transport` value;
- the token lookup, the runtime invocation, the clock, the environment's API
  keys, JSON text decoding and the random draws are parameters.

"No request is made" is therefore stated as independence: two different
service functions give the same result.

Python's exceptions are modelled explicitly. `PyJson.Py<T>` is a value or
the text of the exception raised. The handlers turn those texts into error
answers exactly where the source catches them.

Modules:

| module | models |
|---|---|
| `Optional` | an option type |
| `Text` | the `str` operations used: `strip`, `lower`/`upper`/`title`, `in`, `find`, `split`, `join`, `replace('\\n', '\n')`, `str(int)`, `int(str)` |
| `PyJson` | decoded JSON values and the dict/list operations the tools apply to them, with the exceptions they raise |
| `Fleet` | the vehicle record, and order-preserving selection, counting and partition by an attribute |
| `FleetQuery` | the fleet table tools |
| `Signals` | the holiday and event tools, and `datetime.fromisoformat` on dates |
| `Gateway` | tool-name extraction, argument lookup and the response envelope shared by the two gateway tools |
| `FlightLambda`, `WeatherLambda` | the two gateway tools and their handlers |
| `RuntimeProxy` | the chat proxy handler and the reply clean-up |
| `SeedData` | the mock-vehicle generator |

Where the code and its documentation part ways, the model follows the code:

- The `status` filter of the nationwide search is compared verbatim, so
  `"Available"` finds nothing (`FleetQuery.StatusIsCaseSensitive`).
- `make` and `model` are title-cased and then matched by case-sensitive
  containment. A model stored as `CR-V` is therefore missed even when it is
  typed exactly as stored (`FleetQuery.ModelTitleCaseMisses`).
- The default end date of the event search is thirty days after *now*, not
  thirty days after the start date the caller gave (`Signals.EventRequest`).
- In the holiday lookup, month `0` is a filter no date passes. The report
  nevertheless labels it `"all"` (`Signals.MonthZeroIsEmptyButAll`).
- `get_tool_name` returns the piece between the first `___` and the next
  one (`Gateway.ToolNameIsSecondPiece`). It is not simply the text after
  the target name.
- Both gateway tools define `get_tool_name` and `get_named_parameter`. The
  copies in `backend/lambda/flight_lambda.py` and
  `backend/lambda/weather_lambda.py` are identical, and `Gateway` models
  them once.

## Model

| member | source | states |
|---|---|---|
| FleetQuery.SearchByZip | backend/fleet_tools.py:25-44 | every record returned is stored and has the ZIP code (and the status, when one is given); a failing store gives `[]` |
| FleetQuery.SearchByZipExact | backend/fleet_tools.py:28-41 | the ZIP query returns exactly the stored records matching ZIP (and status), each as often as stored, in store order |
| FleetQuery.SearchFleetByZip | backend/fleet_tools.py:110-123 | no match gives the "No vehicles found for <zip>" message; otherwise the reply holds the matches, their count, and the location of the first |
| FleetQuery.FleetSummary | backend/fleet_tools.py:47-60 | an empty ZIP gives only the error; otherwise location of the first record, total = number of records, each status count ≤ total and equal to the number of records with that status, categories = exactly the categories present with their positive counts, and the average rate times the total is the sum of the rates |
| FleetQuery.MeanRate | backend/fleet_tools.py:61 | the average rate times the number of records is the sum of their rates |
| FleetQuery.StatusCountsCoverTotal | backend/fleet_tools.py:56-59 | available + rented + maintenance = total when every record at the ZIP has one of the three statuses |
| FleetQuery.CategoryCountsCoverTotal | backend/fleet_tools.py:56-60 | the category counts, over the distinct categories, add up to the total |
| Fleet.Tally | backend/fleet_tools.py:60 | `value_counts().to_dict()`: keys are exactly the values present, each mapped to its positive count |
| Fleet.PartitionByAttr | backend/fleet_tools.py:166-172 | concatenating the selections for the distinct values of an attribute is a permutation of the records, and their counts sum to the total |
| FleetQuery.Examined | backend/fleet_tools.py:86-88 | the scan examines the first 100 items in store order, or all when fewer |
| FleetQuery.SearchVehicles | backend/fleet_tools.py:65-93 | at most 100 records, each satisfying every supplied filter; exactly the matching records among those examined, with multiplicity and order; a failing store gives `[]` |
| FleetQuery.SearchWithoutFilters | backend/fleet_tools.py:81-88 | with no argument supplied, the scan returns the first 100 items unfiltered |
| FleetQuery.CategoryIgnoresCase | backend/fleet_tools.py:75-76 | two category arguments equal up to case give the same result |
| FleetQuery.MakeIgnoresCase | backend/fleet_tools.py:71-72 | the make argument gives the same result in any case |
| FleetQuery.ModelIgnoresCase | backend/fleet_tools.py:73-74 | the model argument gives the same result in any case |
| FleetQuery.StatusIsCaseSensitive | backend/fleet_tools.py:77-78 | a capitalised status misses the stored lower-case one, while the exact status finds it |
| FleetQuery.ModelTitleCaseMisses | backend/fleet_tools.py:73-74 | `title("CR-V")` is `Cr-V`, so the stored `CR-V` model is not found |
| FleetQuery.GroupByLocation | backend/fleet_tools.py:166-172 | the grouping loop yields a partition: keys are exactly the distinct locations, listed once each in first-seen order; each group is non-empty, ordered as in the input and holds only its location's records; groups concatenated are a permutation of the input |
| FleetQuery.GroupStepExisting | backend/fleet_tools.py:168-172 | appending a record to its existing location group keeps the grouping exact |
| FleetQuery.GroupStepNew | backend/fleet_tools.py:168-172 | opening a new group for an unseen location keeps the grouping exact |
| FleetQuery.GroupingIsPartition | backend/fleet_tools.py:167-172 | a grouping by location lists each location once, puts each record under its own location, and is a permutation of the records |
| FleetQuery.GroupKeys | backend/fleet_tools.py:167-177 | the group keys are the distinct locations; `locations_found` equals their number |
| FleetQuery.GroupsKeepOrder | backend/fleet_tools.py:167-172 | every group is non-empty and keeps the records' relative order |
| FleetQuery.TermsAreTheSupplied | backend/fleet_tools.py:151-159 | a term `label: value` appears exactly for each supplied argument |
| FleetQuery.SearchVehiclesGeneral | backend/fleet_tools.py:148-182 | empty scan gives the message naming the supplied terms joined by ", "; otherwise count = number of records, `locations_found` = number of distinct locations, and `by_location` is the grouping of the records by location, keys in first-seen order |
| FleetQuery.SearchTerms | backend/fleet_tools.py:151-159 | for any arguments, the terms are `make: …`, `model: …`, `category: …`, `status: …` in that order, each present exactly when its argument is supplied and non-empty |
| FleetQuery.NoMatchMessage | backend/fleet_tools.py:150-164 | an instance of the message: make and status supplied, model missing, category empty gives "make: Toyota, status: available" |
| FleetQuery.MatchesIgnoreArgumentCase | backend/fleet_tools.py:70-78 | the filter predicate does not change when the make, model and category arguments are lower-cased; the status is used as given |
| Signals.FromIsoFormat | backend/fleet_tools.py:228 | accepts only well-shaped valid dates, reads the month from characters 5-6, and names a malformed string in the error |
| Signals.IsoRoundTrip | backend/fleet_tools.py:228 | reading back the ISO text of any valid date gives the date |
| Signals.KeepMonth | backend/fleet_tools.py:227-228 | with a month, the filter keeps exactly the holidays of that month and no other; the first unreadable date raises |
| Signals.KeepMonthCounts | backend/fleet_tools.py:227-228 | each holiday of the month is kept as often as it occurs, every other dropped |
| Signals.FormatHoliday | backend/fleet_tools.py:231-240 | a holiday is readable exactly when it has date, name and country code; `localName` defaults to `name`, `global` to false, `types` to `[]` |
| Signals.ReadHolidays | backend/fleet_tools.py:224-240 | an empty dict or string reply gives no holidays and any other non-list raises; with a month, a failed month filter raises its error; otherwise the result is Ok exactly when every kept holiday formats, is then the formatted kept list element by element, and otherwise raises the first failure; with a month, every holiday returned has a date in that month |
| Signals.MonthLabel | backend/fleet_tools.py:244 | the month field is `"all"` exactly when no month or month 0 is given, else the month |
| Signals.NationalHolidays | backend/fleet_tools.py:199-258 | the year defaults to the current one; a transport failure gives "Failed to fetch holidays: …", an exception gives "Error: …"; a reply `ReadHolidays` reads is reported with its holidays, their count and the month label, and one it raises on gives "Error: …"; month-filtered holidays all lie in the month |
| Signals.MonthFilterDropsNothing | backend/fleet_tools.py:226-246 | with a month, every well-formed holiday of that month is in the report |
| Signals.NoMonthZero | backend/fleet_tools.py:228 | no readable date lies in month 0 |
| Signals.MonthZeroIsEmptyButAll | backend/fleet_tools.py:227-246 | month 0 reports no holidays but the label `"all"` |
| Signals.EventRequest | backend/fleet_tools.py:262-312 | explicit dates become `<d>T00:00:00Z` and `<d>T23:59:59Z`, missing ones now and now + 30 days; the size defaults to 20 and is `min(size, 200)`; key, postal code, `US` and `date,asc` passed through |
| Signals.EventVenue | backend/fleet_tools.py:333-342 | no `_embedded` or no `venues` gives `{}`; an empty venue list raises "list index out of range"; a first venue dict whose city, state and address are dicts or absent gives its name, city name, state code and first address line, each `Unknown` when missing |
| Signals.Start | backend/fleet_tools.py:344-345 | `dates.start` is read when `dates` is a dict or absent, defaulting to `{}` |
| Signals.FirstClassification | backend/fleet_tools.py:350 | a missing list gives `{}`; otherwise the first classification |
| Signals.FormatEvent | backend/fleet_tools.py:330-364 | an event formats exactly when every lookup can be made; then name, URL and prices are the event's or `Unknown`/`""`/`[]`, date and time are `dates.start`'s `localDate`/`localTime` or `Unknown`/`TBD`, type and genre are the first classification's segment and genre names or `Unknown`, and the venue is `EventVenue`'s; a dict without `_embedded`, `dates` and `classifications` gets every default |
| Signals.ReadEvents | backend/fleet_tools.py:317-371 | a reply without `_embedded`, or whose `_embedded` has no `events`, is the empty answer with the ZIP-code message; for an event list, the reply succeeds exactly when every event formats, event i is the formatting of listed event i, count = number of events and `page` is the reply's or `{}`; otherwise the first failing event's error |
| Signals.LocalEvents | backend/fleet_tools.py:261-382 | a missing or empty key gives the key error; with a key, the reply to `EventRequest` decides: a transport failure gives "Failed to fetch events: …", an exception or a `ReadEvents` raise gives "Error: …", and otherwise the answer is what `ReadEvents` makes of the reply; counts match the event list; the empty answer carries the ZIP-code message |
| Signals.NoKeyNoRequest | backend/fleet_tools.py:282-287 | without a key the answer does not depend on the event service |
| Signals.OnlyTheEventRequest | backend/fleet_tools.py:302-315 | with a key, the only request that matters is the one `EventRequest` builds |
| Signals.NoEmbeddedEvents | backend/fleet_tools.py:319-326 | a reply without embedded events yields count 0 and "No events found for ZIP code <zip>" |
| Gateway.ToolName | backend/lambda/flight_lambda.py:13-23 | a missing context or key gives `""`; a name without `___` is returned unchanged; the result never contains `___` |
| Gateway.ToolNameOfQualified | backend/lambda/flight_lambda.py:17-20 | `<Target>___<tool>` yields `<tool>` |
| Gateway.ToolNameIsSecondPiece | backend/lambda/flight_lambda.py:19-20 | a name with `___` yields the text between the first `___` and the next one, or the end |
| Gateway.Param | backend/lambda/flight_lambda.py:26-29 | the named argument, or null when absent; an event that is not a dict raises |
| Gateway.UnknownTool | backend/lambda/flight_lambda.py:138-142 | a well-formed 400 error envelope "Unknown tool: <name>" |
| Gateway.InternalError | backend/lambda/flight_lambda.py:144-148 | a well-formed 500 error envelope "Internal error: <text>" |
| FlightLambda.ToArrival | backend/lambda/flight_lambda.py:77-85 | a flight normalises exactly when it is a dict whose `flight`, `airline`, `departure` and `arrival` are dicts or absent; each arrival field is then the nested value or `N/A`, and the status is `flight_status` or `N/A`; a flight that is not a dict raises |
| FlightLambda.ArrivalDefaults | backend/lambda/flight_lambda.py:78-85 | for any readable flight, each of the six fields is the nested value when present and `N/A` when absent |
| FlightLambda.ToArrivals | backend/lambda/flight_lambda.py:76-85 | one arrival per flight, arrival i from flight i; the first unreadable flight raises |
| FlightLambda.ReadArrivals | backend/lambda/flight_lambda.py:64-92 | an `error` dict is reported as "API Error: <info>", with "Unknown error" when `info` is absent, and any other `error` raises; without `error`, a `data` list gives Arrivals exactly when every flight normalises, with `total_arrivals_shown` = number of flights, arrival i normalised from flight i, and otherwise the raise of a flight that fails; error answers keep the airport |
| FlightLambda.FlightTraffic | backend/lambda/flight_lambda.py:32-105 | a string airport always gives a report with the upper-cased airport; a missing or placeholder key gives the key error with its note; with a key, the reply to `FlightQuery` decides: a transport failure gives "Failed to fetch flight data: …", an exception or a `ReadArrivals` raise gives "Error: …", and otherwise the report is what `ReadArrivals` makes of the reply; a non-string airport raises |
| FlightLambda.NoKeyNoRequest | backend/lambda/flight_lambda.py:43-51 | without a usable key the answer does not depend on the flight service |
| FlightLambda.UpstreamError | backend/lambda/flight_lambda.py:55-71 | the request asks for 10 arrivals at the upper-cased airport; the service's error object is reported as "API Error: <info>" |
| FlightLambda.Handler | backend/lambda/flight_lambda.py:108-148 | answers are 200 with a result, or 400/500 with an error; unknown tool gives 400 "Unknown tool: <name>"; a falsy airport code gives 400; every 500 is "Internal error: …"; a non-empty string airport code gives a 200 with the flight tool's report, and a 200 arises only that way, carrying the upper-cased airport |
| FlightLambda.ValidCall | backend/lambda/flight_lambda.py:122-136 | a call to this tool whose event holds a non-empty airport code string is answered 200 with `get_flight_traffic`'s report, whatever else the event holds |
| FlightLambda.NonStringAirport | backend/lambda/flight_lambda.py:97-105 | a truthy non-string airport code ends in a 500, because the error answers call `upper()` again |
| WeatherLambda.ForecastRequest | backend/lambda/weather_lambda.py:60 | the requested length is `min(days, 16)` at the geocoded coordinates |
| WeatherLambda.Locate | backend/lambda/weather_lambda.py:48-57 | missing or falsy `results` means not found; a non-dict answer raises; when the first result is a dict with latitude, longitude and name, the place found is exactly those three values |
| WeatherLambda.DayAt | backend/lambda/weather_lambda.py:68-75 | day i is the i-th value of each of the six daily arrays when all are lists long enough; a missing `time` raises `'time'` |
| WeatherLambda.ReadForecast | backend/lambda/weather_lambda.py:65-75 | when `daily` holds the six arrays at least as long as `daily.time`, the forecast has one day per element of `daily.time`, day i zipped from index i |
| WeatherLambda.Days | backend/lambda/weather_lambda.py:65-75 | day i read at index i for each i below n; the first unreadable day raises |
| WeatherLambda.ZipsDailyArrays | backend/lambda/weather_lambda.py:65-75 | arrays at least as long as `daily.time` are zipped index-wise into one day per element of `daily.time` |
| WeatherLambda.WeatherForecast | backend/lambda/weather_lambda.py:31-94 | `forecast_days` = length of the forecast; a forecast names the place `Locate` found in the geocoding reply and holds what `ReadForecast` reads from the reply to that place's `ForecastRequest`, and every such pair of replies gives that forecast; an unknown place gives "Location '<loc>' not found"; a non-string location fails in URL quoting |
| WeatherLambda.DaysAreCapped | backend/lambda/weather_lambda.py:60 | asking for more than 16 days is asking for 16 |
| WeatherLambda.NotFoundAsksNoForecast | backend/lambda/weather_lambda.py:48-52 | an unknown place is answered without consulting the forecast service |
| WeatherLambda.Handler | backend/lambda/weather_lambda.py:97-142 | 200/400/500 envelope; unknown tool gives 400; a falsy location gives 400 "location parameter is required"; a 500 is "Internal error: …"; a 200 carries the weather tool's forecast for the location and for `int(days)`, or 7 days when `days` is absent |
| WeatherLambda.DaysDefault | backend/lambda/weather_lambda.py:122-126 | a missing or null `days` behaves as `days = 7` |
| WeatherLambda.UnconvertibleDays | backend/lambda/weather_lambda.py:126 | a `days` text `int()` rejects gives a 500 with the `int()` message |
| WeatherLambda.DefaultWeek | backend/lambda/weather_lambda.py:122-130 | a string location without `days` gives a 200 with the 7-day forecast for it |
| WeatherLambda.UnderscoredDays | backend/lambda/weather_lambda.py:126 | `days` written with an underscore between digit groups, such as `1_0`, is read as the number without it |
| PyJson.ToInt | backend/lambda/weather_lambda.py:126 | `int()`: an int is itself, a string gives its decimal value or raises, a float truncates toward zero, null, lists and dicts raise |
| PyJson.IntOfText | backend/lambda/weather_lambda.py:126 | `int()` on a string: its value exactly when the text parses, otherwise the "invalid literal for int() with base 10" error naming the text |
| PyJson.Truncate | backend/lambda/weather_lambda.py:126 | `int()` on a float: the whole part, rounded toward zero |
| Text.ParseInt | backend/lambda/weather_lambda.py:126 | the text `int()` reads after dropping the whitespace `int()` skips: a run of digits gives its value; blank text is rejected |
| Text.SeparatorRejected | backend/lambda/weather_lambda.py:126 | an information separator U+001C–U+001F before the digits makes `int()` fail, though `str.strip()` would drop it |
| Text.IntStripAgrees | backend/lambda/weather_lambda.py:126 | on text without information separators, `int()` skips exactly the whitespace `str.strip()` drops |
| Text.UnderscoreIgnored | backend/lambda/weather_lambda.py:126 | `int()` ignores one underscore between digit groups |
| Text.DoubledUnderscoreRejected | backend/lambda/weather_lambda.py:126 | two underscores in a row are rejected |
| Text.LeadingUnderscoreRejected | backend/lambda/weather_lambda.py:126 | a leading underscore is rejected |
| Text.TrailingUnderscoreRejected | backend/lambda/weather_lambda.py:126 | a trailing underscore is rejected |
| Text.ParseIntText | backend/lambda/weather_lambda.py:126 | `int(str(i)) == i` for every integer |
| Text.Title | backend/fleet_tools.py:72-74 | `title()`: a character after a letter is lower-cased, any other upper-cased; the length is kept |
| Text.TitleIgnoresCase | backend/fleet_tools.py:72-74 | title-casing ignores the case the argument was typed in |
| RuntimeProxy.RuntimeId | backend/lambda/runtime_proxy_lambda.py:50 | a slash-free suffix of the ARN, preceded by a slash unless it is the whole ARN |
| RuntimeProxy.RuntimeIdOfArn | backend/lambda/runtime_proxy_lambda.py:50 | the id of `<prefix>/<id>` is `<id>`, whatever the prefix |
| RuntimeProxy.CleanStripped | backend/lambda/runtime_proxy_lambda.py:92-97 | the cleaned reply is non-empty and holds no backslash-n, unless it is the fixed notice; empty text or a lone pair of quotes gives the notice; non-empty unquoted text is its own newline-unescaping, and longer quoted text is the unescaping of what lies between the quotes; so text without backslash-n is unchanged apart from its quotes |
| RuntimeProxy.CleanReply | backend/lambda/runtime_proxy_lambda.py:91-97 | the reply after strip, unquote and unescape is never empty and holds no backslash-n, unless it is "No response from runtime"; a reply that strips to nothing or to a lone pair of quotes gives that notice; otherwise it is the newline-unescaping of the stripped reply, or of what lies between its quotes; an unpadded, unquoted reply without backslash-n comes back unchanged |
| RuntimeProxy.UnquotesOnce | backend/lambda/runtime_proxy_lambda.py:92-95 | exactly one layer of matching quotes is removed; inner quotes stay |
| RuntimeProxy.CleanIgnoresPadding | backend/lambda/runtime_proxy_lambda.py:91 | whitespace around the reply does not change the result |
| Text.UnescapeIdentity | backend/lambda/runtime_proxy_lambda.py:95 | text without backslash-n is left unchanged by the replacement |
| RuntimeProxy.RequestBody | backend/lambda/runtime_proxy_lambda.py:127 | a missing body decodes `"{}"`, a string body is decoded, any other body raises the `json.loads` type error |
| Text.UnescapeLeavesNoEscape | backend/lambda/runtime_proxy_lambda.py:95 | after the replacement no backslash-n remains |
| Text.EscapeUndoesUnescape | backend/lambda/runtime_proxy_lambda.py:95 | escaping the newlines back restores text that had no newline of its own |
| Text.UnescapeUndoesEscape | backend/lambda/runtime_proxy_lambda.py:95 | unescaping restores text with no backslash-n of its own |
| RuntimeProxy.InvokeRuntime | backend/lambda/runtime_proxy_lambda.py:40-103 | no ARN or an unsliceable prompt gives no reply; a string reply comes back cleaned; a reply is never empty |
| RuntimeProxy.Handler | backend/lambda/runtime_proxy_lambda.py:106-170 | a dict event always gets a response carrying the four CORS headers, status 200/400/500, 200 exactly when the body is not an error; OPTIONS gives 200 with an empty body |
| RuntimeProxy.PreflightIgnoresEverythingElse | backend/lambda/runtime_proxy_lambda.py:118-123 | the preflight answer does not depend on body, token, ARN or runtime |
| RuntimeProxy.MissingPrompt | backend/lambda/runtime_proxy_lambda.py:127-135 | a missing or empty prompt gives 400 "No prompt provided" |
| RuntimeProxy.NoTokenNoInvocation | backend/lambda/runtime_proxy_lambda.py:138-144 | without a token the answer is 500 "Failed to authenticate" whatever the runtime would reply |
| RuntimeProxy.PromptReachesRuntime | backend/lambda/runtime_proxy_lambda.py:146-160 | past the prompt and token checks, the answer is 200 with the runtime's reply or 500 "Failed to get response from runtime" |
| RuntimeProxy.RuntimeReplies | backend/lambda/runtime_proxy_lambda.py:147-154 | a string reply comes back cleaned with a 200 |
| RuntimeProxy.RuntimeFails | backend/lambda/runtime_proxy_lambda.py:147-160 | a runtime failure is a 500 |
| RuntimeProxy.NumericPrompt | backend/lambda/runtime_proxy_lambda.py:55-103 | a numeric prompt fails inside the invocation and ends in a 500 |
| SeedData.LicensePlate | backend/load_fleet_data.py:66 | seven characters: one of the five prefixes followed by the four digits of the drawn number |
| SeedData.Vin | backend/load_fleet_data.py:69 | seventeen characters, a leading 1, the rest from the VIN alphabet |
| SeedData.VinAlphabetChars | backend/load_fleet_data.py:69 | the VIN alphabet holds only digits and capital letters other than I, O and Q |
| SeedData.RentalPeriod | backend/load_fleet_data.py:71-76 | dates are set exactly for a rented vehicle; the start lies before and the end after the clock readings |
| SeedData.GenerateVehicle | backend/load_fleet_data.py:54-94 | status is one of the three; rented exactly when both rental dates are set, start before end; location `<city>, <state>` and the given ZIP; make, model, year, category and a whole-cent rate within range from one catalogue entry; mileage in [5000, 50000]; plate and VIN as above |
| SeedData.SeededSummaryBalances | backend/load_fleet_data.py:50-57 | in a table of generated records the summary's three status counts add up to the total |
| SeedData.SeededRentalDates | backend/load_fleet_data.py:71-76 | in a table of generated records a vehicle is rented exactly when it has both rental dates |

## Left out

- The vehicle table, the HTTP services, Cognito and the runtime invocation are inputs: the table is a sequence of records and a service is a function from its request to a `Transport`. Timeouts, retries and the batch-loading and table-clearing functions of `backend/load_fleet_data.py` are not modelled.
- The ZIP-code index sorts the records of one ZIP code by status. The model returns them in store order, because the index order is a property of the store.
- FleetQuery.FleetSummary: `avg_daily_rate` is the exact mean of the decimal rates; the float mean and its rounding to two places are not modelled.
- The order of the category dictionary is not modelled: `value_counts()` orders by count, and the model's `Tally` is a map.
- JSON text is not modelled: neither `json.dumps` layout and `indent`, nor the `Decimal` to float conversion for output. Replies are datatypes, and request bodies are decoded by a parameter.
- SeedData.GenerateVehicle: the random draws (catalogue entry, status, mileage, rate, plate, VIN characters, day offsets), the UUID and the three clock readings are inputs with their ranges as preconditions. The rate is taken as already rounded to cents. The status weights are not modelled.
- SeedData.GenerateVehicle does not state `last_updated < rental_end`. That holds only if less than a day passes between the clock readings, which the model does not bound.
- Timestamps are microsecond counts, and their ISO text is not rendered. The event search's two formatted clock readings are inputs (`Signals.Clock`).
- Signals.FromIsoFormat reads only the calendar-date form `YYYY-MM-DD`. Other forms Python accepts, such as a time part or the basic `YYYYMMDD` form, are reported as invalid.
- Case mapping (`lower`, `upper`, `title`) covers the ASCII letters only; Unicode case mapping is not modelled.
- Text.ParseInt accepts ASCII digits only. `int()` also accepts other Unicode decimal digits, such as Arabic-Indic ones, and the model rejects those.
- PyJson.IntOfText: the error for a rejected text quotes it as `'<text>'`. Python shows the text's `repr`, which differs when the text contains a quote or a control character.
- URL percent-encoding is not modelled; only its failure on a non-string location is.
- Exception texts are the CPython messages written as fixed strings. Where a message depends on a `repr`, the model uses a simpler text: `Show` renders floats, lists and dicts by a type placeholder.
- Iterating a dict or string where the code expects a list of records yields strings, and the model raises at the first of them with the text the loop body's first operation would raise. The exact per-key behaviour is not modelled.
- How `invoke_runtime` extracts text from the runtime's response (`backend/lambda/runtime_proxy_lambda.py:66-86`: streaming body, `outputText`, `completion` chunks, `str(response)`) is folded into the `invoke` parameter. That parameter returns the extracted value or a failure. Logging and the session UUID are left out.
- Printing and logging are left out everywhere.
