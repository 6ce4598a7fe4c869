/** The two demand-signal tools of the fleet agent: national holidays,
    optionally narrowed to one month, and upcoming local events near a ZIP
    code. The holiday and event services, the clock and the environment's
    API key are parameters. */
module Signals {
  import opened Optional
  import opened Text
  import opened PyJson

  // ---------------------------------------------------------------------------
  // Calendar dates as `datetime.fromisoformat` reads them
  // ---------------------------------------------------------------------------

  datatype Date = Date(year: int, month: int, day: int)

  predicate IsLeapYear(y: int) {
    y % 4 == 0 && (y % 100 != 0 || y % 400 == 0)
  }

  function DaysInMonth(y: int, m: int): int
    requires 1 <= m <= 12
  {
    if m == 2 then (if IsLeapYear(y) then 29 else 28)
    else if m == 4 || m == 6 || m == 9 || m == 11 then 30
    else 31
  }

  /** A date `datetime` can represent. */
  predicate ValidDate(d: Date) {
    && 1 <= d.year <= 9999
    && 1 <= d.month <= 12
    && 1 <= d.day <= DaysInMonth(d.year, d.month)
  }

  /** The text has the shape `YYYY-MM-DD`. */
  predicate DateShaped(s: string) {
    && |s| == 10 && s[4] == '-' && s[7] == '-'
    && AllDigits(s[..4]) && AllDigits(s[5..7]) && AllDigits(s[8..])
  }

  /** `datetime.fromisoformat` on the calendar-date form `YYYY-MM-DD`, with
      the range errors `datetime` reports. */
  function FromIsoFormat(j: Json): (r: Py<Date>)
    ensures r.Ok? ==> ValidDate(r.value)
    ensures r.Ok? ==> j.Str? && DateShaped(j.s) && r.value.month == DigitsValue(j.s[5..7])
    ensures j.Str? && !DateShaped(j.s) ==> r == Raised("Invalid isoformat string: '" + j.s + "'")
  {
    if !j.Str? then Raised("fromisoformat: argument must be str")
    else if !DateShaped(j.s) then Raised("Invalid isoformat string: '" + j.s + "'")
    else
      var s := j.s;
      var d := Date(DigitsValue(s[..4]), DigitsValue(s[5..7]), DigitsValue(s[8..]));
      DigitsBound(s[..4]);
      if d.year < 1 then Raised("year 0 is out of range")
      else if !(1 <= d.month <= 12) then Raised("month must be in 1..12")
      else if !(1 <= d.day <= DaysInMonth(d.year, d.month)) then Raised("day is out of range for month")
      else Ok(d)
  }

  /** `n` as two decimal digits. */
  function TwoDigits(n: nat): (r: string)
    requires n < 100
    ensures |r| == 2 && AllDigits(r)
  {
    [DigitChar(n / 10), DigitChar(n % 10)]
  }

  /** `n` as four decimal digits. */
  function FourDigits(n: nat): (r: string)
    requires n < 10000
    ensures |r| == 4 && AllDigits(r)
  {
    TwoDigits(n / 100) + TwoDigits(n % 100)
  }

  /** `date.isoformat()`. */
  function IsoText(d: Date): (r: string)
    requires ValidDate(d)
    ensures DateShaped(r)
  {
    var r := FourDigits(d.year) + "-" + TwoDigits(d.month) + "-" + TwoDigits(d.day);
    assert r[..4] == FourDigits(d.year) && r[5..7] == TwoDigits(d.month) && r[8..] == TwoDigits(d.day);
    r
  }

  lemma TwoDigitsValue(n: nat)
    requires n < 100
    ensures DigitsValue(TwoDigits(n)) == n
  {
    var t := TwoDigits(n);
    assert t[..1] == [t[0]];
    assert DigitsValue(t[..1]) == n / 10 by {
      assert [t[0]][..0] == [];
    }
  }

  lemma AllDigitsConcat(a: string, b: string)
    requires AllDigits(a) && AllDigits(b)
    ensures AllDigits(a + b)
  {
    forall i | 0 <= i < |a + b| ensures IsDigit((a + b)[i]) {
      if i < |a| { assert (a + b)[i] == a[i]; } else { assert (a + b)[i] == b[i - |a|]; }
    }
  }

  lemma AllDigitsInit(s: string)
    requires AllDigits(s) && s != []
    ensures AllDigits(s[..|s| - 1])
  {
    var init := s[..|s| - 1];
    forall i | 0 <= i < |init| ensures IsDigit(init[i]) { assert init[i] == s[i]; }
  }

  /** The value of digits written after others shifts those left. */
  lemma {:induction false} DigitsValueAppend(a: string, b: string)
    requires AllDigits(a) && AllDigits(b)
    ensures AllDigits(a + b)
    ensures DigitsValue(a + b) == DigitsValue(a) * Pow10(|b|) + DigitsValue(b)
    decreases |b|
  {
    AllDigitsConcat(a, b);
    if b == [] {
      assert a + b == a;
    } else {
      var init := b[..|b| - 1];
      assert (a + b)[..|a + b| - 1] == a + init;
      AllDigitsInit(b);
      DigitsValueAppend(a, init);
      var last := b[|b| - 1] as int - '0' as int;
      assert (a + b)[|a + b| - 1] == b[|b| - 1];
      var va, vi, p := DigitsValue(a), DigitsValue(init), Pow10(|init|);
      assert DigitsValue(a + b) == DigitsValue(a + init) * 10 + last;
      assert DigitsValue(b) == vi * 10 + last;
      assert Pow10(|b|) == p * 10;
      ShiftDigit(va, vi, p, last);
    }
  }

  lemma ShiftDigit(va: int, vi: int, p: int, last: int)
    ensures (va * p + vi) * 10 + last == va * (p * 10) + (vi * 10 + last)
  {
  }

  function Pow10(k: nat): nat {
    if k == 0 then 1 else 10 * Pow10(k - 1)
  }

  /** `k` digits stay below `10^k`. */
  lemma {:induction false} DigitsBound(s: string)
    requires AllDigits(s)
    ensures DigitsValue(s) < Pow10(|s|)
  {
    if s != [] {
      AllDigitsInit(s);
      DigitsBound(s[..|s| - 1]);
    }
  }

  /** Reading back the text of a valid date gives the date. */
  lemma IsoRoundTrip(d: Date)
    requires ValidDate(d)
    ensures FromIsoFormat(Str(IsoText(d))) == Ok(d)
  {
    var s := IsoText(d);
    IsoParts(d);
    FourDigitsValue(d.year);
    TwoDigitsValue(d.month);
    TwoDigitsValue(d.day);
    assert DigitsValue(s[..4]) == d.year && DigitsValue(s[5..7]) == d.month && DigitsValue(s[8..]) == d.day;
  }

  /** The year, month and day texts sit at their fixed places in `YYYY-MM-DD`. */
  lemma IsoParts(d: Date)
    requires ValidDate(d)
    ensures var s := IsoText(d); s[..4] == FourDigits(d.year) && s[5..7] == TwoDigits(d.month) && s[8..] == TwoDigits(d.day)
  {
  }

  lemma FourDigitsValue(n: nat)
    requires n < 10000
    ensures DigitsValue(FourDigits(n)) == n
  {
    TwoDigitsValue(n / 100);
    TwoDigitsValue(n % 100);
    DigitsValueAppend(TwoDigits(n / 100), TwoDigits(n % 100));
    assert Pow10(2) == 100;
  }

  // ---------------------------------------------------------------------------
  // get_national_holidays
  // ---------------------------------------------------------------------------

  /** One holiday as the tool reports it. */
  datatype Holiday = Holiday(date: Json, name: Json, localName: Json, countryCode: Json,
                             isGlobal: Json, types: Json)

  /** The `month` field of the report: the month asked for, or `"all"`. */
  datatype MonthField = AllMonths | Month(month: int)

  /** The tool's result: an error with an empty holiday list, or the list. */
  datatype HolidayReport =
    | HolidayError(error: string)
    | Holidays(year: int, month: MonthField, count: nat, holidays: seq<Holiday>)

  /** The month of a holiday record's `date`. */
  function HolidayMonth(h: Json): Py<int> {
    var date :- Item(h, "date");
    var d :- FromIsoFormat(date);
    Ok(d.month)
  }

  /** The month filter: the holidays whose date falls in `month`, in order;
      the first record whose date cannot be read raises. */
  function KeepMonth(hs: seq<Json>, month: int): (r: Py<seq<Json>>)
    ensures r.Ok? ==> |r.value| <= |hs|
    ensures r.Ok? ==> forall h :: h in r.value ==> h in hs && HolidayMonth(h) == Ok(month)
    ensures r.Ok? ==> forall h :: h in hs && HolidayMonth(h) == Ok(month) ==> h in r.value
    ensures r.Raised? ==> exists i :: 0 <= i < |hs| && HolidayMonth(hs[i]) == Raised(r.text)
                                      && forall j :: 0 <= j < i ==> HolidayMonth(hs[j]).Ok?
    ensures r.Ok? <==> forall i :: 0 <= i < |hs| ==> HolidayMonth(hs[i]).Ok?
  {
    if hs == [] then Ok([])
    else
      var init := hs[..|hs| - 1];
      var h := hs[|hs| - 1];
      assert hs == init + [h];
      assert forall j :: 0 <= j < |init| ==> init[j] == hs[j];
      var head := KeepMonth(init, month);
      if head.Raised? then head.PropagateFailure()
      else
        var m := HolidayMonth(h);
        if m.Raised? then m.PropagateFailure()
        else Ok(if m.value == month then head.value + [h] else head.value)
  }

  /** The filter keeps each record of the month as often as it occurs and
      no other record. */
  lemma {:induction false} KeepMonthCounts(hs: seq<Json>, month: int, h: Json)
    requires KeepMonth(hs, month).Ok?
    ensures multiset(KeepMonth(hs, month).value)[h] == if HolidayMonth(h) == Ok(month) then multiset(hs)[h] else 0
  {
    if hs != [] {
      var init, last := hs[..|hs| - 1], hs[|hs| - 1];
      assert hs == init + [last];
      KeepMonthSnoc(init, last, month);
      KeepMonthCounts(init, month, h);
    }
  }

  /** The filter of a list with one more record keeps that record exactly
      when it falls in the month. */
  lemma KeepMonthSnoc(init: seq<Json>, last: Json, month: int)
    requires KeepMonth(init + [last], month).Ok?
    ensures KeepMonth(init, month).Ok? && HolidayMonth(last).Ok?
    ensures KeepMonth(init + [last], month).value
         == KeepMonth(init, month).value + if HolidayMonth(last) == Ok(month) then [last] else []
  {
    assert (init + [last])[..|init|] == init;
  }

  /** One holiday record with the tool's defaults: `localName` falls back
      to `name`, `global` to false, `types` to an empty list. */
  function FormatHoliday(h: Json): (r: Py<Holiday>)
    ensures r.Ok? <==> h.Obj? && "date" in h.fields && "name" in h.fields && "countryCode" in h.fields
    ensures r.Ok? ==>
      var m := h.fields;
      && r.value.date == m["date"] && r.value.name == m["name"] && r.value.countryCode == m["countryCode"]
      && r.value.localName == (if "localName" in m then m["localName"] else m["name"])
      && r.value.isGlobal == (if "global" in m then m["global"] else Bool(false))
      && r.value.types == (if "types" in m then m["types"] else Arr([]))
  {
    var date :- Item(h, "date");
    var name :- Item(h, "name");
    var m := h.fields;
    var countryCode :- Item(h, "countryCode");
    Ok(Holiday(date, name, Lookup(m, "localName", name), countryCode,
               Lookup(m, "global", Bool(false)), Lookup(m, "types", Arr([]))))
  }

  /** The decoded holiday list, filtered by month when one is given, then
      formatted. */
  function ReadHolidays(body: Json, month: Option<int>): (r: Py<seq<Holiday>>)
    ensures r.Ok? && month.Some? ==> forall x :: x in r.value ==> exists d :: FromIsoFormat(x.date) == Ok(d) && d.month == month.value
    ensures body == Obj(map[]) || body == Str("") ==> r == Ok([])
    ensures !(body.Arr? || body == Obj(map[]) || body == Str("")) ==> r.Raised?
    ensures body.Arr? && month.Some? && KeepMonth(body.items, month.value).Raised? ==>
      r == Raised(KeepMonth(body.items, month.value).text)
    ensures body.Arr? && (month.None? || KeepMonth(body.items, month.value).Ok?) ==>
      var kept := if month.Some? then KeepMonth(body.items, month.value).value else body.items;
      && (r.Ok? <==> forall i :: 0 <= i < |kept| ==> FormatHoliday(kept[i]).Ok?)
      && (r.Ok? ==> |r.value| == |kept| && forall i :: 0 <= i < |kept| ==> FormatHoliday(kept[i]) == Ok(r.value[i]))
      && (r.Raised? ==> exists i :: 0 <= i < |kept| && FormatHoliday(kept[i]) == Raised(r.text)
                                    && forall j :: 0 <= j < i ==> FormatHoliday(kept[j]).Ok?)
  {
    var listed :- Elements(body, StringIndexText);
    var kept :- if month.Some? then KeepMonth(listed, month.value) else Ok(listed);
    var formatted :- MapAll(kept, FormatHoliday);
    assert month.Some? ==> forall x :: x in formatted ==> exists d :: FromIsoFormat(x.date) == Ok(d) && d.month == month.value by {
      if month.Some? {
        forall x | x in formatted
          ensures exists d :: FromIsoFormat(x.date) == Ok(d) && d.month == month.value
        {
          var i :| 0 <= i < |formatted| && formatted[i] == x;
          assert FormatHoliday(kept[i]) == Ok(x);
          assert HolidayMonth(kept[i]) == Ok(month.value);
          assert FromIsoFormat(x.date).value.month == month.value;
        }
      }
    }
    Ok(formatted)
  }

  /** `month if month else "all"`. */
  function MonthLabel(month: Option<int>): (r: MonthField)
    ensures r == AllMonths <==> month.None? || month.value == 0
    ensures r.Month? ==> month == Some(r.month)
  {
    if month.None? || month.value == 0 then AllMonths else Month(month.value)
  }

  /** `get_national_holidays`: the year defaults to the current one; every
      failure is answered with an error and an empty list. */
  function NationalHolidays(year: Option<int>, month: Option<int>, currentYear: int,
                            fetch: int -> Transport): (r: HolidayReport)
    ensures r.Holidays? ==> r.year == year.GetOr(currentYear) && r.count == |r.holidays|
    ensures r.Holidays? ==> r.month == MonthLabel(month)
    ensures r.Holidays? && month.Some? ==>
      forall x :: x in r.holidays ==> exists d :: FromIsoFormat(x.date) == Ok(d) && d.month == month.value
    ensures fetch(year.GetOr(currentYear)).FetchFailed? ==>
      r == HolidayError("Failed to fetch holidays: " + fetch(year.GetOr(currentYear)).reason)
    ensures fetch(year.GetOr(currentYear)).FetchRaised? ==>
      r == HolidayError("Error: " + fetch(year.GetOr(currentYear)).reason)
    ensures fetch(year.GetOr(currentYear)).Received? ==>
      var read := ReadHolidays(fetch(year.GetOr(currentYear)).body, month);
      && (read.Raised? ==> r == HolidayError("Error: " + read.text))
      && (read.Ok? ==> r == Holidays(year.GetOr(currentYear), MonthLabel(month), |read.value|, read.value))
  {
    var y := year.GetOr(currentYear);
    match fetch(y)
    case FetchFailed(reason) => HolidayError("Failed to fetch holidays: " + reason)
    case FetchRaised(reason) => HolidayError("Error: " + reason)
    case Received(body) =>
      match ReadHolidays(body, month)
      case Raised(text) => HolidayError("Error: " + text)
      case Ok(hs) => Holidays(y, MonthLabel(month), |hs|, hs)
  }

  /** With a month, every well-formed holiday of that month is reported, in
      its formatted form. */
  lemma MonthFilterDropsNothing(year: int, month: int, hs: seq<Json>, h: Json, fetch: int -> Transport)
    requires fetch(year) == Received(Arr(hs))
    requires forall i :: 0 <= i < |hs| ==> HolidayMonth(hs[i]).Ok? && FormatHoliday(hs[i]).Ok?
    requires h in hs && HolidayMonth(h) == Ok(month)
    ensures var r := NationalHolidays(Some(year), Some(month), year, fetch);
      r.Holidays? && FormatHoliday(h).value in r.holidays
  {
    assert KeepMonth(hs, month).Ok?;
    var kept := KeepMonth(hs, month).value;
    var j :| 0 <= j < |kept| && kept[j] == h;
    forall x | x in kept ensures FormatHoliday(x).Ok? {
      var i :| 0 <= i < |hs| && hs[i] == x;
    }
    var formatted := MapAll(kept, FormatHoliday);
    assert formatted.Ok?;
    assert ReadHolidays(Arr(hs), Some(month)) == formatted;
    assert formatted.value[j] == FormatHoliday(h).value;
  }

  /** No readable date lies in month 0. */
  lemma NoMonthZero(h: Json)
    ensures HolidayMonth(h) != Ok(0)
  {
  }

  /** Month 0 is a filter no date passes, yet the report labels it `"all"`. */
  lemma MonthZeroIsEmptyButAll(year: int, hs: seq<Json>, fetch: int -> Transport)
    requires fetch(year) == Received(Arr(hs))
    requires forall i :: 0 <= i < |hs| ==> HolidayMonth(hs[i]).Ok?
    ensures NationalHolidays(Some(year), Some(0), year, fetch) == Holidays(year, AllMonths, 0, [])
  {
    var kept := KeepMonth(hs, 0);
    assert kept.Ok?;
    if kept.value != [] {
      NoMonthZero(kept.value[0]);
    }
    assert ReadHolidays(Arr(hs), Some(0)) == Ok([]);
  }

  // ---------------------------------------------------------------------------
  // get_local_events
  // ---------------------------------------------------------------------------

  const EventsKeyMissing :=
    "Ticketmaster API key not configured. Set TICKETMASTER_API_KEY environment variable."

  /** The largest page of events the tool asks for. */
  const MaxPageSize := 200

  /** The page size when the caller gives none. */
  const DefaultPageSize := 20

  /** The clock readings the tool formats as `%Y-%m-%dT%H:%M:%SZ`: now, and
      thirty days from now. */
  datatype Clock = Clock(now: string, monthAhead: string)

  /** The query parameters of the events request. */
  datatype EventQuery = EventQuery(apiKey: string, postalCode: string, countryCode: string,
                                   startDateTime: string, endDateTime: string, size: int, sort: string)

  /** The events request. An explicit start date is taken from midnight, an
      explicit end date up to the last second of its day; a missing start is
      now and a missing end is thirty days from now (not from the start);
      the page size is capped at `MaxPageSize`. */
  function EventRequest(apiKey: string, zipCode: string, startDate: Option<string>, endDate: Option<string>,
                        size: Option<int>, clock: Clock): (q: EventQuery)
    ensures q.apiKey == apiKey && q.postalCode == zipCode && q.countryCode == "US" && q.sort == "date,asc"
    ensures startDate.Some? ==> q.startDateTime == startDate.value + "T00:00:00Z"
    ensures startDate.None? ==> q.startDateTime == clock.now
    ensures endDate.Some? ==> q.endDateTime == endDate.value + "T23:59:59Z"
    ensures endDate.None? ==> q.endDateTime == clock.monthAhead
    ensures q.size <= MaxPageSize && (q.size == size.GetOr(DefaultPageSize) || q.size == MaxPageSize)
    ensures size.None? ==> q.size == DefaultPageSize
    ensures size.Some? && size.value <= MaxPageSize ==> q.size == size.value
  {
    EventQuery(apiKey, zipCode, "US",
               if startDate.Some? then startDate.value + "T00:00:00Z" else clock.now,
               if endDate.Some? then endDate.value + "T23:59:59Z" else clock.monthAhead,
               if size.GetOr(DefaultPageSize) < MaxPageSize then size.GetOr(DefaultPageSize) else MaxPageSize,
               "date,asc")
  }

  /** The venue of an event: `{}` when the event embeds none. */
  datatype Venue = NoVenue | Venue(name: Json, city: Json, state: Json, address: Json)

  /** One event as the tool reports it. */
  datatype Event = Event(name: Json, date: Json, time: Json, kind: Json, genre: Json, venue: Venue,
                         url: Json, priceRanges: Json)

  /** The tool's result: an error, the empty answer for a reply without
      embedded events, or the events with the service's paging object. */
  datatype EventsReport =
    | EventsError(error: string)
    | NoEvents(zipCode: string, message: string)
    | Events(zipCode: string, count: nat, events: seq<Event>, page: Json)

  const Unknown := Str("Unknown")

  /** The venues an event embeds: `event["_embedded"]["venues"]`, when the
      event is a dict whose `_embedded` dict holds them. */
  function EmbeddedVenues(e: map<string, Json>): Option<Json> {
    if "_embedded" in e && e["_embedded"].Obj? && "venues" in e["_embedded"].fields
    then Some(e["_embedded"].fields["venues"]) else None
  }

  /** The venue record of a venue dict, with `"Unknown"` for each missing
      field. */
  function VenueOf(v: map<string, Json>): Venue {
    Venue(Lookup(v, "name", Unknown), Inner(v, "city", "name", Unknown), Inner(v, "state", "stateCode", Unknown),
          Inner(v, "address", "line1", Unknown))
  }

  /** The first embedded venue, with `"Unknown"` for each missing field. */
  function EventVenue(event: Json): (r: Py<Venue>)
    ensures event.Obj? && "_embedded" !in event.fields ==> r == Ok(NoVenue)
    ensures (event.Obj? && "_embedded" in event.fields && event.fields["_embedded"].Obj?
             && "venues" !in event.fields["_embedded"].fields) ==> r == Ok(NoVenue)
    ensures event.Obj? && EmbeddedVenues(event.fields) == Some(Arr([])) ==> r == Raised("list index out of range")
    ensures event.Obj? && EmbeddedVenues(event.fields).Some? && EmbeddedVenues(event.fields).value.Arr? ==>
      var venues := EmbeddedVenues(event.fields).value.items;
      |venues| > 0 && venues[0].Obj? ==>
        var v := venues[0].fields;
        (r.Ok? <==> DictOrAbsent(v, "city") && DictOrAbsent(v, "state") && DictOrAbsent(v, "address"))
        && (r.Ok? ==> r.value == VenueOf(v))
  {
    var hasEmbedded :- Has(event, "_embedded");
    if !hasEmbedded then Ok(NoVenue)
    else
      var embedded :- Item(event, "_embedded");
      var hasVenues :- Has(embedded, "venues");
      if !hasVenues then Ok(NoVenue)
      else
        var venues :- Item(embedded, "venues");
        var venue :- At(venues, 0);
        if !venue.Obj? then Raised(NoAttribute(venue, "get"))
        else
          var v := venue.fields;
          var city :- Get(Lookup(v, "city", Obj(map[])), "name", Unknown);
          var state :- Get(Lookup(v, "state", Obj(map[])), "stateCode", Unknown);
          var address :- Get(Lookup(v, "address", Obj(map[])), "line1", Unknown);
          Ok(Venue(Lookup(v, "name", Unknown), city, state, address))
  }

  /** `event.get("dates", {}).get("start", {})`. */
  function Start(e: map<string, Json>): (r: Py<Json>)
    ensures r.Ok? <==> DictOrAbsent(e, "dates")
    ensures r.Ok? ==> r.value == Inner(e, "dates", "start", Obj(map[]))
  {
    Get(Lookup(e, "dates", Obj(map[])), "start", Obj(map[]))
  }

  /** `event.get("classifications", [{}])[0]`. */
  function FirstClassification(e: map<string, Json>): (r: Py<Json>)
    ensures "classifications" !in e ==> r == Ok(Obj(map[]))
    ensures "classifications" in e && e["classifications"].Arr? && e["classifications"].items != [] ==>
      r == Ok(e["classifications"].items[0])
  {
    At(Lookup(e, "classifications", Arr([Obj(map[])])), 0)
  }

  /** Every lookup `FormatEvent` makes succeeds: the event is a dict, its
      venue can be read, its dates and start are dicts, and its first
      classification is a dict whose segment and genre are dicts. */
  predicate Formattable(event: Json) {
    && event.Obj? && EventVenue(event).Ok?
    && Start(event.fields).Ok? && Start(event.fields).value.Obj?
    && FirstClassification(event.fields).Ok? && FirstClassification(event.fields).value.Obj?
    && DictOrAbsent(FirstClassification(event.fields).value.fields, "segment")
    && DictOrAbsent(FirstClassification(event.fields).value.fields, "genre")
  }

  /** One event record with the tool's defaults, reading the fields in the
      order the tool does. */
  function FormatEvent(event: Json): (r: Py<Event>)
    ensures r.Ok? <==> Formattable(event)
    ensures r.Ok? ==>
      var e := event.fields;
      var start := Start(e).value.fields;
      var c := FirstClassification(e).value.fields;
      r.value == Event(Lookup(e, "name", Unknown), Lookup(start, "localDate", Unknown),
                       Lookup(start, "localTime", Str("TBD")), Inner(c, "segment", "name", Unknown),
                       Inner(c, "genre", "name", Unknown), EventVenue(event).value,
                       Lookup(e, "url", Str("")), Lookup(e, "priceRanges", Arr([])))
    ensures event.Obj? && "_embedded" !in event.fields && "dates" !in event.fields
            && "classifications" !in event.fields ==>
      var e := event.fields;
      r == Ok(Event(Lookup(e, "name", Unknown), Unknown, Str("TBD"), Unknown, Unknown, NoVenue,
                    Lookup(e, "url", Str("")), Lookup(e, "priceRanges", Arr([]))))
    ensures !event.Obj? && !event.Str? && !event.Arr? ==> r.Raised?
  {
    var venue :- EventVenue(event);
    if !event.Obj? then Raised(NoAttribute(event, "get"))
    else
      var e := event.fields;
      var start :- Start(e);
      if !start.Obj? then Raised(NoAttribute(start, "get"))
      else
        var classification :- FirstClassification(e);
        var kind :- Nested(classification, "segment", "name", Unknown);
        var genre :- Nested(classification, "genre", "name", Unknown);
        Ok(Event(Lookup(e, "name", Unknown), Lookup(start.fields, "localDate", Unknown),
                 Lookup(start.fields, "localTime", Str("TBD")), kind, genre, venue,
                 Lookup(e, "url", Str("")), Lookup(e, "priceRanges", Arr([]))))
  }

  /** The message of the empty answer. */
  function NoEventsMessage(zipCode: string): string {
    "No events found for ZIP code " + zipCode
  }

  /** The part of `get_local_events` after the service has answered. */
  function ReadEvents(data: Json, zipCode: string): (r: Py<EventsReport>)
    ensures r.Ok? ==> !r.value.EventsError?
    ensures r.Ok? && r.value.Events? ==> r.value.zipCode == zipCode && r.value.count == |r.value.events|
    ensures r.Ok? && r.value.NoEvents? ==> r.value == NoEvents(zipCode, NoEventsMessage(zipCode))
    ensures data.Obj? && "_embedded" !in data.fields ==> r == Ok(NoEvents(zipCode, NoEventsMessage(zipCode)))
    ensures (data.Obj? && "_embedded" in data.fields && data.fields["_embedded"].Obj?
             && "events" !in data.fields["_embedded"].fields) ==> r == Ok(NoEvents(zipCode, NoEventsMessage(zipCode)))
    ensures data.Obj? && "_embedded" in data.fields && data.fields["_embedded"].Obj?
            && "events" in data.fields["_embedded"].fields && data.fields["_embedded"].fields["events"].Arr? ==>
      var listed := data.fields["_embedded"].fields["events"].items;
      && (r.Ok? <==> forall i :: 0 <= i < |listed| ==> FormatEvent(listed[i]).Ok?)
      && (r.Ok? ==> r.value.Events? && |r.value.events| == |listed|
                    && (forall i :: 0 <= i < |listed| ==> FormatEvent(listed[i]) == Ok(r.value.events[i]))
                    && r.value.page == Lookup(data.fields, "page", Obj(map[])))
      && (r.Raised? ==> exists i :: 0 <= i < |listed| && FormatEvent(listed[i]) == Raised(r.text)
                                    && forall j :: 0 <= j < i ==> FormatEvent(listed[j]).Ok?)
  {
    var hasEmbedded :- Has(data, "_embedded");
    if !hasEmbedded then Ok(NoEvents(zipCode, NoEventsMessage(zipCode)))
    else
      var embedded :- Item(data, "_embedded");
      var hasEvents :- Has(embedded, "events");
      if !hasEvents then Ok(NoEvents(zipCode, NoEventsMessage(zipCode)))
      else
        var events :- Item(embedded, "events");
        var listed :- Elements(events, NoAttribute(Str(""), "get"));
        var formatted :- MapAll(listed, FormatEvent);
        Ok(Events(zipCode, |formatted|, formatted, Lookup(data.fields, "page", Obj(map[]))))
  }

  /** `get_local_events`. A missing or empty key is answered before any
      request; every later failure is answered with an error and an empty
      list. */
  function LocalEvents(zipCode: string, startDate: Option<string>, endDate: Option<string>, size: Option<int>,
                       apiKey: Option<string>, clock: Clock, fetch: EventQuery -> Transport): (r: EventsReport)
    ensures apiKey.None? || apiKey == Some("") ==> r == EventsError(EventsKeyMissing)
    ensures r.Events? ==> r.zipCode == zipCode && r.count == |r.events|
    ensures r.NoEvents? ==> r == NoEvents(zipCode, NoEventsMessage(zipCode))
    ensures apiKey.Some? && apiKey.value != "" ==>
      var reply := fetch(EventRequest(apiKey.value, zipCode, startDate, endDate, size, clock));
      && (reply.FetchFailed? ==> r == EventsError("Failed to fetch events: " + reply.reason))
      && (reply.FetchRaised? ==> r == EventsError("Error: " + reply.reason))
      && (reply.Received? && ReadEvents(reply.body, zipCode).Raised? ==>
            r == EventsError("Error: " + ReadEvents(reply.body, zipCode).text))
      && (reply.Received? && ReadEvents(reply.body, zipCode).Ok? ==> r == ReadEvents(reply.body, zipCode).value)
  {
    if apiKey.None? || apiKey.value == "" then EventsError(EventsKeyMissing)
    else
      match fetch(EventRequest(apiKey.value, zipCode, startDate, endDate, size, clock))
      case FetchFailed(reason) => EventsError("Failed to fetch events: " + reason)
      case FetchRaised(reason) => EventsError("Error: " + reason)
      case Received(data) =>
        match ReadEvents(data, zipCode)
        case Raised(text) => EventsError("Error: " + text)
        case Ok(report) => report
  }

  /** Without a key no request is made: the answer does not depend on the
      service. */
  lemma NoKeyNoRequest(zipCode: string, startDate: Option<string>, endDate: Option<string>, size: Option<int>,
                       apiKey: Option<string>, clock: Clock, f: EventQuery -> Transport, g: EventQuery -> Transport)
    requires apiKey.None? || apiKey == Some("")
    ensures LocalEvents(zipCode, startDate, endDate, size, apiKey, clock, f)
         == LocalEvents(zipCode, startDate, endDate, size, apiKey, clock, g)
  {
  }

  /** With a key, the one request made is `EventRequest`: two services that
      answer it alike give the same result. */
  lemma OnlyTheEventRequest(zipCode: string, startDate: Option<string>, endDate: Option<string>, size: Option<int>,
                            key: string, clock: Clock, f: EventQuery -> Transport, g: EventQuery -> Transport)
    requires key != ""
    requires f(EventRequest(key, zipCode, startDate, endDate, size, clock))
          == g(EventRequest(key, zipCode, startDate, endDate, size, clock))
    ensures LocalEvents(zipCode, startDate, endDate, size, Some(key), clock, f)
         == LocalEvents(zipCode, startDate, endDate, size, Some(key), clock, g)
  {
  }

  /** A reply without embedded events is the empty answer, `count` 0. */
  lemma NoEmbeddedEvents(zipCode: string, startDate: Option<string>, endDate: Option<string>, size: Option<int>,
                         key: string, clock: Clock, fetch: EventQuery -> Transport, page: Json)
    requires key != ""
    requires fetch(EventRequest(key, zipCode, startDate, endDate, size, clock)) == Received(Obj(map["page" := page]))
    ensures LocalEvents(zipCode, startDate, endDate, size, Some(key), clock, fetch)
         == NoEvents(zipCode, "No events found for ZIP code " + zipCode)
  {
  }
}
