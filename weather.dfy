/** The weather client: the `YYYY-MM-DD` dates it sends (the calendar-date
    extended format of section 4.1.2.2 of ISO 8601:2004, cut from the output
    of `Date.prototype.toISOString`), the request parameters, the index-wise
    zip of the daily arrays into `WeatherDay` records, and the collapse of
    every failure into one error. Coordinates and temperatures are only
    copied, so their types are parameters. */
module Weather {
  import opened Common
  import opened Text

  /** The UTC calendar fields of a valid JavaScript `Date`. */
  datatype UtcDateTime = UtcDateTime(
    year: int, month: int, day: int,
    hour: int, minute: int, second: int, millis: int)

  /** The ranges a valid `Date` keeps its fields in. */
  predicate WellFormed(t: UtcDateTime) {
    && -271821 <= t.year <= 275760
    && 1 <= t.month <= 12 && 1 <= t.day <= 31
    && 0 <= t.hour < 24 && 0 <= t.minute < 60 && 0 <= t.second < 60
    && 0 <= t.millis < 1000
  }

  /** A `Date` object: an invalid date, or a valid one. */
  datatype JsDate = InvalidDate | Valid(fields: UtcDateTime)

  predicate ValidDate(d: JsDate) {
    d.Valid? ==> WellFormed(d.fields)
  }

  /** The year as `toISOString` writes it: four digits for years 0 to 9999,
      otherwise a sign and six digits. */
  function YearText(year: int): (r: string)
    requires -1000000 < year < 1000000
    ensures 0 <= year <= 9999 ==> |r| == 4 && AllDigits(r)
    ensures 'T' !in r
  {
    if 0 <= year <= 9999 then PadDigits(year, 4)
    else if year < 0 then "-" + PadDigits(-year, 6)
    else "+" + PadDigits(year, 6)
  }

  /** `toISOString`: `YYYY-MM-DDTHH:mm:ss.sssZ`. */
  function ToIsoString(t: UtcDateTime): string
    requires WellFormed(t)
  {
    YearText(t.year) + "-" + PadDigits(t.month, 2) + "-" + PadDigits(t.day, 2)
    + "T" + PadDigits(t.hour, 2) + ":" + PadDigits(t.minute, 2) + ":" + PadDigits(t.second, 2)
    + "." + PadDigits(t.millis, 3) + "Z"
  }

  /** `s.split('T')[0]`: everything before the first `T`, or all of `s`. */
  function BeforeFirstT(s: string): (r: string)
    ensures 'T' !in r
    ensures r <= s
    ensures |r| < |s| ==> s[|r|] == 'T'
  {
    if s == [] || s[0] == 'T' then []
    else [s[0]] + BeforeFirstT(s[1..])
  }

  lemma {:induction false} BeforeFirstTOfJoin(a: string, b: string)
    requires 'T' !in a
    ensures BeforeFirstT(a + "T" + b) == a
  {
    if a != [] {
      assert (a + "T" + b)[1..] == a[1..] + "T" + b;
      BeforeFirstTOfJoin(a[1..], b);
    }
  }

  /** The calendar date of a `Date` as sent to the forecast service. */
  function DateParam(t: UtcDateTime): string
    requires WellFormed(t)
  {
    BeforeFirstT(ToIsoString(t))
  }

  /** The date parameter is the calendar-date part of the timestamp. */
  lemma DateParamIsCalendarDate(t: UtcDateTime)
    requires WellFormed(t)
    ensures DateParam(t) == YearText(t.year) + "-" + PadDigits(t.month, 2) + "-" + PadDigits(t.day, 2)
  {
    var date := YearText(t.year) + "-" + PadDigits(t.month, 2) + "-" + PadDigits(t.day, 2);
    var time := PadDigits(t.hour, 2) + ":" + PadDigits(t.minute, 2) + ":" + PadDigits(t.second, 2)
      + "." + PadDigits(t.millis, 3) + "Z";
    assert ToIsoString(t) == date + "T" + time;
    BeforeFirstTOfJoin(date, time);
  }

  /** Reads a `YYYY-MM-DD` string back into year, month and day. */
  function ParseCalendarDate(s: string): (r: Option<(int, int, int)>)
    ensures r.Some? ==> |s| == 10 && s[4] == '-' && s[7] == '-'
  {
    if |s| == 10 && s[4] == '-' && s[7] == '-'
       && AllDigits(s[..4]) && AllDigits(s[5..7]) && AllDigits(s[8..])
    then Some((ParseDigits(s[..4]), ParseDigits(s[5..7]), ParseDigits(s[8..])))
    else None
  }

  /** For years 0 to 9999 the date parameter is ten characters `YYYY-MM-DD`
      and reads back as the timestamp's own year, month and day. */
  lemma DateParamRoundTrip(t: UtcDateTime)
    requires WellFormed(t) && 0 <= t.year <= 9999
    ensures |DateParam(t)| == 10
    ensures ParseCalendarDate(DateParam(t)) == Some((t.year, t.month, t.day))
  {
    DateParamIsCalendarDate(t);
    var y, m, d := PadDigits(t.year, 4), PadDigits(t.month, 2), PadDigits(t.day, 2);
    var s := DateParam(t);
    assert s == y + "-" + m + "-" + d;
    assert s[..4] == y && s[5..7] == m && s[8..] == d;
    ParsePadDigits(t.year, 4);
    ParsePadDigits(t.month, 2);
    ParsePadDigits(t.day, 2);
  }

  /** The query parameters of the forecast request. */
  datatype ForecastRequest<C> = ForecastRequest(
    latitude: C, longitude: C, daily: string,
    startDate: string, endDate: string, timezone: string)

  /** `daily` of the forecast response: three arrays meant to run in parallel. */
  datatype DailyBody<Temp> = DailyBody(time: seq<string>, temperatureMax: seq<Temp>, temperatureMin: seq<Temp>)

  /** One day of forecast. A temperature read past the end of its array is
      JavaScript's `undefined`, written `None`. */
  datatype WeatherDay<Temp> = WeatherDay(day: string, maxTemp: Option<Temp>, lowTemp: Option<Temp>)

  const WeatherError: string := "Failed to fetch weather forecast"

  /** Array indexing as JavaScript does it: `undefined` past the end. */
  function At<T>(s: seq<T>, i: int): (r: Option<T>)
    ensures r.Some? <==> 0 <= i < |s|
    ensures r.Some? ==> r.value == s[i]
  {
    if 0 <= i < |s| then Some(s[i]) else None
  }

  /** `daily.time.map((day, index) => ({ day, maxTemp: max[index], lowTemp: min[index] }))`. */
  function ToWeatherDays<Temp>(daily: DailyBody<Temp>): (r: seq<WeatherDay<Temp>>)
    ensures |r| == |daily.time|
  {
    seq(|daily.time|, i requires 0 <= i < |daily.time| =>
      WeatherDay(daily.time[i], At(daily.temperatureMax, i), At(daily.temperatureMin, i)))
  }

  /** The three arrays are long enough for every day to get both temperatures. */
  predicate Aligned<Temp>(daily: DailyBody<Temp>) {
    |daily.temperatureMax| >= |daily.time| && |daily.temperatureMin| >= |daily.time|
  }

  /** Entry `i` holds `time[i]` and, when the arrays are aligned, the `i`-th
      maximum and minimum unchanged; without alignment some entry lacks a
      temperature. */
  lemma ToWeatherDaysEntries<Temp>(daily: DailyBody<Temp>)
    ensures forall i :: 0 <= i < |daily.time| ==> ToWeatherDays(daily)[i].day == daily.time[i]
    ensures Aligned(daily) ==> forall i :: 0 <= i < |daily.time| ==>
      ToWeatherDays(daily)[i].maxTemp == Some(daily.temperatureMax[i])
      && ToWeatherDays(daily)[i].lowTemp == Some(daily.temperatureMin[i])
    ensures !Aligned(daily) ==>
      exists i :: 0 <= i < |daily.time|
        && (ToWeatherDays(daily)[i].maxTemp.None? || ToWeatherDays(daily)[i].lowTemp.None?)
  {
    var r := ToWeatherDays(daily);
    if !Aligned(daily) {
      var n := |daily.time|;
      var i := if |daily.temperatureMax| < n then |daily.temperatureMax| else |daily.temperatureMin|;
      assert r[i].maxTemp.None? || r[i].lowTemp.None?;
    }
  }

  function Days<Temp>(ws: seq<WeatherDay<Temp>>): (r: seq<string>)
    ensures |r| == |ws|
    ensures forall i :: 0 <= i < |ws| ==> r[i] == ws[i].day
  {
    seq(|ws|, i requires 0 <= i < |ws| => ws[i].day)
  }

  function MaxTemps<Temp>(ws: seq<WeatherDay<Temp>>): seq<Option<Temp>> {
    seq(|ws|, i requires 0 <= i < |ws| => ws[i].maxTemp)
  }

  function LowTemps<Temp>(ws: seq<WeatherDay<Temp>>): seq<Option<Temp>> {
    seq(|ws|, i requires 0 <= i < |ws| => ws[i].lowTemp)
  }

  function Defined<T>(s: seq<T>): seq<Option<T>> {
    seq(|s|, i requires 0 <= i < |s| => Some(s[i]))
  }

  /** Splitting the records back into columns returns the day array and the
      leading part of each temperature array: nothing is reordered, dropped,
      converted or rounded. */
  lemma ToWeatherDaysUnzip<Temp>(daily: DailyBody<Temp>)
    requires Aligned(daily)
    ensures Days(ToWeatherDays(daily)) == daily.time
    ensures MaxTemps(ToWeatherDays(daily)) == Defined(daily.temperatureMax[..|daily.time|])
    ensures LowTemps(ToWeatherDays(daily)) == Defined(daily.temperatureMin[..|daily.time|])
  {
  }

  /** The days come out in the order of `time`, so any order `time` is in
      (ascending dates, for one) carries over. */
  lemma ToWeatherDaysKeepsOrder<Temp>(daily: DailyBody<Temp>, before: (string, string) -> bool)
    requires forall i, j :: 0 <= i < j < |daily.time| ==> before(daily.time[i], daily.time[j])
    ensures forall i, j :: 0 <= i < j < |daily.time| ==>
      before(ToWeatherDays(daily)[i].day, ToWeatherDays(daily)[j].day)
  {
  }

  function BuildForecastRequest<C>(latitude: C, longitude: C, start: UtcDateTime, end: UtcDateTime): (q: ForecastRequest<C>)
    requires WellFormed(start) && WellFormed(end)
    ensures q.latitude == latitude && q.longitude == longitude
    ensures q.daily == "temperature_2m_max,temperature_2m_min" && q.timezone == "auto"
    ensures q.startDate == DateParam(start) && q.endDate == DateParam(end)
  {
    ForecastRequest(latitude, longitude, "temperature_2m_max,temperature_2m_min",
                    DateParam(start), DateParam(end), "auto")
  }

  /** `fetchWeatherForecast`. An invalid `Date` makes `toISOString` throw
      before any request; `transport` is what the one request, when sent,
      produced. */
  function FetchWeatherForecast<C, Temp>(
    latitude: C, longitude: C, start: JsDate, end: JsDate, transport: Transport<DailyBody<Temp>>)
    : (c: Call<ForecastRequest<C>, seq<WeatherDay<Temp>>>)
    requires ValidDate(start) && ValidDate(end)
    ensures c.request.Some? <==> start.Valid? && end.Valid?
    ensures c.request.Some? ==>
      c.request.value == BuildForecastRequest(latitude, longitude, start.fields, end.fields)
    ensures c.result.Err? ==> c.result.error == WeatherError
    ensures c.result.Ok? <==>
      c.request.Some? && transport.Response? && transport.ok && transport.body.Some?
    ensures c.result.Ok? ==> c.result.value == ToWeatherDays(transport.body.value)
  {
    if start.InvalidDate? || end.InvalidDate? then Call(None, Err(WeatherError))
    else
      var request := BuildForecastRequest(latitude, longitude, start.fields, end.fields);
      match transport
      case Response(true, _, Some(body)) => Call(Some(request), Ok(ToWeatherDays(body)))
      case _ => Call(Some(request), Err(WeatherError))
  }
}
