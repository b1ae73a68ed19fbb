/** The weather service (`services/weather.ts`): four weather.gov requests
    whose answers are turned into the temperature, condition, daily high
    and low and last-hour precipitation shown in the bar. */
module Weather {
  import opened Wrappers
  import opened Strings
  import opened JsRuntime

  /** A thrown value: its `message` property and `String(e)`. */
  datatype Thrown = Thrown(message: string, text: string)

  /** A computation that returned a value or threw. */
  datatype Outcome<+T> = Got(value: T) | Threw(error: Thrown)

  /** What an `Error` constructed with `msg` looks like when caught. */
  function ErrorOf(msg: string): Thrown
  {
    Thrown(msg, if msg == [] then "Error" else "Error: " + msg)
  }

  // ---------------------------------------------------------------- the API answers

  /** The fields of `/points/{lat},{lon}` the service reads. */
  datatype Point = Point(forecast: string, observationStations: string)

  /** The fields of `/observations/latest` the service reads; `None` is
      `null` or a missing value. */
  datatype Observation = Observation(
    temperature: Option<real>,
    textDescription: Option<string>,
    precipitationLastHour: Option<real>)

  datatype Period = Period(temperature: real, shortForecast: string, name: string, isDaytime: bool)

  datatype WeatherData = WeatherData(temp: int, condition: string, high: real, low: real, precip: real)

  /** The network and `JSON.parse` as seen by the service: `curl` gives
      the body fetched from a URL (or throws), and each decoder turns a
      body into the fields read from it (or throws, as a property access
      on a missing object does). */
  datatype Api = Api(
    curl: string -> Outcome<string>,
    decodePoint: string -> Outcome<Point>,
    decodeStations: string -> Outcome<seq<string>>,
    decodeObservation: string -> Outcome<Observation>,
    decodeForecast: string -> Outcome<seq<Period>>)

  /** The grid point for latitude 38.4404, longitude -122.7141. */
  const PointUrl := "https://api.weather.gov/points/38.4404,-122.7141"

  const ObservationSuffix := "/observations/latest"

  /** The `TypeError` reading `.id` of the first station of an empty list,
      worded as SpiderMonkey, the engine GJS runs on, words it. */
  const NoStation := Thrown("can't access property \"id\", stationsData.features[0] is undefined",
                            "TypeError: can't access property \"id\", stationsData.features[0] is undefined")

  function EmptyResponse(url: string): Thrown
  {
    ErrorOf("Empty response from " + url)
  }

  /** `_fetchJson`: a body that is empty or only white space is an error
      naming the URL; any other body goes to the decoder. The test
      `!result || result.trim().length === 0` is `AllSpace(result)`, by
      `TrimEmptyIff`. */
  function FetchJson<T>(api: Api, url: string, decode: string -> Outcome<T>): Outcome<T>
  {
    match api.curl(url)
    case Threw(e) => Threw(e)
    case Got(body) => if AllSpace(body) then Threw(EmptyResponse(url)) else decode(body)
  }

  /** A body whose trim is empty is rejected with an error naming the URL,
      whatever the decoder; any other body is decoded, and a failed
      request is passed on. */
  lemma {:induction false} FetchJsonBody<T>(api: Api, url: string, decode: string -> Outcome<T>)
    ensures api.curl(url).Got? && Trim(api.curl(url).value) == [] ==>
              FetchJson(api, url, decode) == Threw(EmptyResponse(url))
    ensures api.curl(url).Got? && Trim(api.curl(url).value) != [] ==>
              FetchJson(api, url, decode) == decode(api.curl(url).value)
    ensures api.curl(url).Threw? ==> FetchJson(api, url, decode) == Threw(api.curl(url).error)
  {
    if api.curl(url).Got? {
      TrimEmptyIff(api.curl(url).value);
    }
  }

  // ---------------------------------------------------------------- the derivation

  /** `tempC != null ? Math.round((tempC * 9/5) + 32) : 0` */
  function Fahrenheit(celsius: Option<real>): (f: int)
    ensures celsius.None? ==> f == 0
    ensures celsius.Some? ==>
              var exact := celsius.value * 9.0 / 5.0 + 32.0;
              exact - 0.5 < f as real <= exact + 0.5
  {
    match celsius
    case None => 0
    case Some(c) => Round(c * 9.0 / 5.0 + 32.0)
  }

  /** Whole multiples of 5 °C convert exactly: 0 °C is 32 °F and 100 °C
      is 212 °F. Warmer is never shown colder. */
  lemma {:induction false} FahrenheitExact(m: int, c: real, d: real)
    ensures Fahrenheit(Some(5.0 * m as real)) == 9 * m + 32
    ensures c <= d ==> Fahrenheit(Some(c)) <= Fahrenheit(Some(d))
  {
    assert (5.0 * m as real) * 9.0 / 5.0 + 32.0 == (9 * m + 32) as real;
    RoundProperties(c * 9.0 / 5.0 + 32.0, d * 9.0 / 5.0 + 32.0, 9 * m + 32);
  }

  /** The first index at or after `from` of a period whose `isDaytime`
      is `daytime`. */
  function FindFrom(periods: seq<Period>, daytime: bool, from: nat): (r: Option<nat>)
    requires from <= |periods|
    ensures r.Some? ==> from <= r.value < |periods| && periods[r.value].isDaytime == daytime
    ensures forall k :: from <= k < |periods| && (r.None? || k < r.value) ==> periods[k].isDaytime != daytime
    decreases |periods| - from
  {
    if from == |periods| then None
    else if periods[from].isDaytime == daytime then Some(from)
    else FindFrom(periods, daytime, from + 1)
  }

  /** `periods.find(p => p.isDaytime == daytime)` */
  function FirstPeriod(periods: seq<Period>, daytime: bool): (r: Option<Period>)
    ensures r.None? <==> forall k :: 0 <= k < |periods| ==> periods[k].isDaytime != daytime
    ensures r.Some? ==> r.value in periods && r.value.isDaytime == daytime
  {
    match FindFrom(periods, daytime, 0)
    case None => None
    case Some(i) => Some(periods[i])
  }

  /** `a || b || "Unknown"` over the description and the first period's
      short forecast: the first non-empty one. */
  function Condition(obs: Observation, periods: seq<Period>): (c: string)
    ensures c != []
    ensures obs.textDescription.Some? && obs.textDescription.value != [] ==> c == obs.textDescription.value
    ensures (obs.textDescription.None? || obs.textDescription.value == []) ==>
              if periods != [] && periods[0].shortForecast != [] then c == periods[0].shortForecast
              else c == "Unknown"
  {
    if obs.textDescription.Some? && obs.textDescription.value != [] then obs.textDescription.value
    else if periods != [] && periods[0].shortForecast != [] then periods[0].shortForecast
    else "Unknown"
  }

  /** The `WeatherData` built from the observation and the forecast. */
  function Derive(obs: Observation, periods: seq<Period>): WeatherData
  {
    WeatherData(
      Fahrenheit(obs.temperature),
      Condition(obs, periods),
      match FirstPeriod(periods, true) case Some(p) => p.temperature case None => 0.0,
      match FirstPeriod(periods, false) case Some(p) => p.temperature case None => 0.0,
      match obs.precipitationLastHour case Some(v) => v case None => 0.0)
  }

  /** The high is the first daytime period's temperature and the low the
      first night period's, 0 when there is none; the precipitation is 0
      when it was not reported. */
  lemma {:induction false} DeriveHighLow(obs: Observation, periods: seq<Period>, k: nat)
    requires k < |periods|
    requires forall j :: 0 <= j < k ==> periods[j].isDaytime != periods[k].isDaytime
    ensures periods[k].isDaytime ==> Derive(obs, periods).high == periods[k].temperature
    ensures !periods[k].isDaytime ==> Derive(obs, periods).low == periods[k].temperature
    ensures obs.precipitationLastHour.None? ==> Derive(obs, periods).precip == 0.0
  {
    var r := FindFrom(periods, periods[k].isDaytime, 0);
    assert r == Some(k);
  }

  /** With no daytime period the high is 0, with no night period the low
      is 0. */
  lemma {:induction false} DeriveNoPeriod(obs: Observation, periods: seq<Period>)
    ensures (forall k :: 0 <= k < |periods| ==> !periods[k].isDaytime) ==> Derive(obs, periods).high == 0.0
    ensures (forall k :: 0 <= k < |periods| ==> periods[k].isDaytime) ==> Derive(obs, periods).low == 0.0
  {
  }

  // ---------------------------------------------------------------- one refresh

  /** The requests a refresh made, in order, and what it came to. */
  datatype Fetched = Fetched(urls: seq<string>, outcome: Outcome<WeatherData>)

  function Then(url: string, rest: Fetched): Fetched
  {
    Fetched([url] + rest.urls, rest.outcome)
  }

  /** The last two requests: the station's latest observation, then the
      forecast. */
  function FromStation(api: Api, point: Point, station: string): (r: Fetched)
    ensures 1 <= |r.urls| <= 2 && r.urls[0] == station + ObservationSuffix
    ensures r.outcome.Got? ==> |r.urls| == 2
  {
    var obsUrl := station + ObservationSuffix;
    match FetchJson(api, obsUrl, api.decodeObservation)
    case Threw(e) => Fetched([obsUrl], Threw(e))
    case Got(obs) =>
      match FetchJson(api, point.forecast, api.decodeForecast)
      case Threw(e) => Fetched([obsUrl, point.forecast], Threw(e))
      case Got(periods) => Fetched([obsUrl, point.forecast], Got(Derive(obs, periods)))
  }

  /** The requests after the grid point: the station list, then the rest
      from its first station. */
  function FromPoint(api: Api, point: Point): (r: Fetched)
    ensures 1 <= |r.urls| <= 3 && r.urls[0] == point.observationStations
    ensures r.outcome.Got? ==> |r.urls| == 3
  {
    var stationsUrl := point.observationStations;
    match FetchJson(api, stationsUrl, api.decodeStations)
    case Threw(e) => Fetched([stationsUrl], Threw(e))
    case Got(ids) =>
      if ids == [] then Fetched([stationsUrl], Threw(NoStation))
      else Then(stationsUrl, FromStation(api, point, ids[0]))
  }

  /** The `try` block of `refresh`: the point, its station list, the first
      station's latest observation, then the forecast; the first failure
      ends it. */
  function Fetch(api: Api): (r: Fetched)
    ensures 1 <= |r.urls| <= 4 && r.urls[0] == PointUrl
    ensures r.outcome.Got? ==> |r.urls| == 4
  {
    match FetchJson(api, PointUrl, api.decodePoint)
    case Threw(e) => Fetched([PointUrl], Threw(e))
    case Got(point) => Then(PointUrl, FromPoint(api, point))
  }

  /** A blank answer for the grid point ends the refresh at once with an
      error naming the URL. */
  lemma {:induction false} FetchBlankPoint(api: Api, body: string)
    requires api.curl(PointUrl) == Got(body) && Trim(body) == []
    ensures Fetch(api) == Fetched([PointUrl], Threw(EmptyResponse(PointUrl)))
  {
    FetchJsonBody(api, PointUrl, api.decodePoint);
  }

  /** The observation comes from the first station of the list, and an
      empty list is an error before any observation is requested. */
  lemma {:induction false} FetchFirstStation(api: Api, point: Point, ids: seq<string>)
    requires FetchJson(api, PointUrl, api.decodePoint) == Got(point)
    requires FetchJson(api, point.observationStations, api.decodeStations) == Got(ids)
    ensures ids == [] ==> Fetch(api) == Fetched([PointUrl, point.observationStations], Threw(NoStation))
    ensures ids != [] ==> |Fetch(api).urls| >= 3
                          && Fetch(api).urls[1] == point.observationStations
                          && Fetch(api).urls[2] == ids[0] + ObservationSuffix
  {
  }

  /** A successful refresh derives its data from the observation of the
      first station and the forecast named by the grid point. */
  lemma {:induction false} FetchSucceeds(api: Api, point: Point, ids: seq<string>, obs: Observation, periods: seq<Period>)
    requires FetchJson(api, PointUrl, api.decodePoint) == Got(point)
    requires FetchJson(api, point.observationStations, api.decodeStations) == Got(ids)
    requires ids != []
    requires FetchJson(api, ids[0] + ObservationSuffix, api.decodeObservation) == Got(obs)
    requires FetchJson(api, point.forecast, api.decodeForecast) == Got(periods)
    ensures Fetch(api) == Fetched([PointUrl, point.observationStations, ids[0] + ObservationSuffix, point.forecast],
                                  Got(Derive(obs, periods)))
  {
    var station := ids[0];
    var urls := [station + ObservationSuffix, point.forecast];
    FromStationSucceeds(api, point, station, obs, periods);
    FromPointStation(api, point, ids);
    FetchOfPoint(api, point);
    assert [PointUrl] + ([point.observationStations] + urls)
           == [PointUrl, point.observationStations, station + ObservationSuffix, point.forecast];
  }

  lemma {:induction false} FetchOfPoint(api: Api, point: Point)
    requires FetchJson(api, PointUrl, api.decodePoint) == Got(point)
    ensures Fetch(api) == Then(PointUrl, FromPoint(api, point))
  {
  }

  lemma {:induction false} FromPointStation(api: Api, point: Point, ids: seq<string>)
    requires FetchJson(api, point.observationStations, api.decodeStations) == Got(ids)
    requires ids != []
    ensures FromPoint(api, point) == Then(point.observationStations, FromStation(api, point, ids[0]))
  {
  }

  lemma {:induction false} FromStationSucceeds(api: Api, point: Point, station: string, obs: Observation, periods: seq<Period>)
    requires FetchJson(api, station + ObservationSuffix, api.decodeObservation) == Got(obs)
    requires FetchJson(api, point.forecast, api.decodeForecast) == Got(periods)
    ensures FromStation(api, point, station)
            == Fetched([station + ObservationSuffix, point.forecast], Got(Derive(obs, periods)))
  {
  }

  /** `e.message || String(e) || "Unknown error"` */
  function ErrorMessage(e: Thrown): (m: string)
    ensures m != []
    ensures e.message != [] ==> m == e.message
  {
    if e.message != [] then e.message else if e.text != [] then e.text else "Unknown error"
  }

  /** An `Error` thrown with a message is reported by that message. */
  lemma {:induction false} ErrorMessageOfError(msg: string)
    ensures ErrorMessage(ErrorOf(msg)) == (if msg == [] then "Error" else msg)
  {
  }

  // ---------------------------------------------------------------- the service

  /** What a subscriber can read when it is notified. */
  datatype Snapshot = Snapshot(data: Option<WeatherData>, error: Option<string>, loading: bool)

  /** A GLib main-loop source id; GLib never hands out 0. */
  type SourceId = n: nat | n > 0 witness 1

  class WeatherService {
    var data: Option<WeatherData>
    var error: Option<string>
    var loading: bool
    var refreshTimer: Option<SourceId>
    /** The state at each `_notify`, in order. */
    var shown: seq<Snapshot>
    /** The URLs fetched, in order. */
    var requested: seq<string>
    /** Sources passed to `GLib.source_remove`, in order. */
    var removed: seq<SourceId>

    function State(): Snapshot
      reads this
    {
      Snapshot(data, error, loading)
    }

    /** The constructor's first `refresh` runs up to its first request
        (the service is loading, with no subscriber yet to notify); then
        the fifteen-minute timer is started. The answers arrive through
        `FinishRefresh`. */
    constructor (timer: SourceId)
      ensures data == None && error == None && loading
      ensures refreshTimer == Some(timer) && shown == [] && requested == [] && removed == []
    {
      data := None;
      error := None;
      loading := true;
      refreshTimer := Some(timer);
      shown := [];
      requested := [];
      removed := [];
    }

    /** The synchronous start of `refresh`: loading is set and announced. */
    method StartRefresh()
      modifies this
      ensures loading && data == old(data) && error == old(error)
      ensures shown == old(shown) + [State()]
      ensures refreshTimer == old(refreshTimer) && requested == old(requested) && removed == old(removed)
    {
      loading := true;
      shown := shown + [State()];
    }

    /** The rest of `refresh`, once the requests have been answered:
        success replaces the data and clears the error, failure records
        the message and keeps the previous data; either way loading ends
        and subscribers are notified. */
    method FinishRefresh(api: Api)
      modifies this
      ensures !loading && shown == old(shown) + [State()]
      ensures requested == old(requested) + Fetch(api).urls
      ensures Fetch(api).outcome.Got? ==> data == Some(Fetch(api).outcome.value) && error == None
      ensures Fetch(api).outcome.Threw? ==>
                data == old(data) && error == Some(ErrorMessage(Fetch(api).outcome.error))
      ensures refreshTimer == old(refreshTimer) && removed == old(removed)
    {
      var fetched := Fetch(api);
      requested := requested + fetched.urls;
      match fetched.outcome {
        case Got(d) =>
          data := Some(d);
          error := None;
        case Threw(e) =>
          error := Some(ErrorMessage(e));
      }
      loading := false;
      shown := shown + [State()];
    }

    /** `refresh` (also `manualRefresh` and the timer firing), with no
        other refresh interleaved. */
    method Refresh(api: Api)
      modifies this
      ensures !loading && requested == old(requested) + Fetch(api).urls
      ensures Fetch(api).outcome.Got? ==> data == Some(Fetch(api).outcome.value) && error == None
      ensures Fetch(api).outcome.Threw? ==>
                data == old(data) && error == Some(ErrorMessage(Fetch(api).outcome.error))
      ensures shown == old(shown) + [Snapshot(old(data), old(error), true), State()]
      ensures refreshTimer == old(refreshTimer) && removed == old(removed)
    {
      StartRefresh();
      FinishRefresh(api);
    }

    /** `destroy`: removes the refresh timer when there is one. */
    method Destroy()
      modifies this
      ensures removed == old(removed) + (if old(refreshTimer).Some? then [old(refreshTimer).value] else [])
      ensures State() == old(State()) && refreshTimer == old(refreshTimer)
      ensures shown == old(shown) && requested == old(requested)
    {
      if refreshTimer.Some? {
        removed := removed + [refreshTimer.value];
      }
    }
  }
}
