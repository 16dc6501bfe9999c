/** The request handler `getCityWeather` (server.js:48-164) as a function from
    the requested city code, the configured API key and what the upstream
    request returned, to the HTTP outcome. */
module Handler {
  import opened Types
  import opened Cities
  import opened Forecasts

  /** The `data` part of a successful response. */
  datatype WeatherData = WeatherData(
    city: string,
    cityCode: string,
    updateTime: Option<string>,
    forecasts: seq<Forecast>)

  /** The kinds of error response the handler sends. */
  datatype Failure =
    | UnsupportedCity          // unknown city code
    | MissingApiKey            // no API key configured
    | UpstreamError(status: int) // the upstream answered with an error status
    | NoData                   // the upstream location list is empty
    | ServerError              // anything else thrown inside the handler

  datatype Outcome = Success(data: WeatherData) | Error(failure: Failure)

  /** The HTTP status each outcome is sent with. */
  function StatusCode(o: Outcome): (r: int)
    ensures o.Success? ==> r == 200
    ensures o.Error? && o.failure.UpstreamError? ==> r == o.failure.status
    ensures !(o.Error? && o.failure.UpstreamError?) ==> r in {200, 400, 404, 500}
  {
    match o
    case Success(_) => 200
    case Error(UnsupportedCity) => 400
    case Error(MissingApiKey) => 500
    case Error(UpstreamError(s)) => s
    case Error(NoData) => 404
    case Error(ServerError) => 500
  }

  /** `!CWA_API_KEY` rejects an unset variable and the empty string alike. */
  predicate KeyConfigured(apiKey: Option<string>) {
    apiKey.Some? && apiKey.value != ""
  }

  /** The upstream body lacks `data`, `data.records` or `records.location`. */
  predicate Malformed(data: Option<Body>) {
    data.None? || data.value.records.None? || data.value.records.value.location.None?
  }

  /** Everything after the city lookup, given whether the lookup's guard let
      the code through. Errors thrown inside the `try` block (the malformed
      body, a missing `weatherElement`, the flattening's TypeErrors) land in
      the `catch` block, which passes an upstream status through and
      answers 500 otherwise. */
  function Respond(guardPasses: bool, cityCode: string, apiKey: Option<string>, upstream: Upstream): (o: Outcome)
    ensures o == Error(UnsupportedCity) <==> !guardPasses
    ensures o == Error(MissingApiKey) <==> guardPasses && !KeyConfigured(apiKey)
    ensures o.Error? && o.failure.UpstreamError? <==>
      guardPasses && KeyConfigured(apiKey) && upstream.HttpError?
    ensures o.Success? ==>
      && guardPasses && KeyConfigured(apiKey) && upstream.Responded?
      && !Malformed(upstream.data) && o.data.cityCode == cityCode
  {
    if !guardPasses then Error(UnsupportedCity)
    else if !KeyConfigured(apiKey) then Error(MissingApiKey)
    else match upstream
      case HttpError(status) => Error(UpstreamError(status))
      case NoResponse => Error(ServerError)
      case Responded(data) =>
        if Malformed(data) then Error(ServerError)
        else
          var records := data.value.records.value;
          var locations := records.location.value;
          if |locations| == 0 then Error(NoData)
          else match locations[0].weatherElement
            case None => Error(ServerError)
            case Some(es) =>
              match Flattened(es)
              case None => Error(ServerError)
              case Some(fs) =>
                Success(WeatherData(locations[0].locationName, cityCode, records.datasetDescription, fs))
  }

  /** The handler with the intended city guard: only keys of the table pass. */
  function GetCityWeather(cityCode: string, apiKey: Option<string>, upstream: Upstream): (o: Outcome)
    ensures o == Error(UnsupportedCity) <==> !IsSupported(cityCode)
    ensures o == Error(MissingApiKey) <==> IsSupported(cityCode) && !KeyConfigured(apiKey)
    ensures o.Success? ==> IsSupported(cityCode) && KeyConfigured(apiKey) && upstream.Responded?
  {
    Respond(IsSupported(cityCode), cityCode, apiKey, upstream)
  }

  /** The handler as written: `!CITY_MAP[cityCode]` lets inherited
      `Object.prototype` member names through as well. */
  function GetCityWeatherAsWritten(cityCode: string, apiKey: Option<string>, upstream: Upstream): (o: Outcome)
    ensures o == Error(UnsupportedCity) <==> cityCode !in CityMap && cityCode !in ObjectPrototypeMembers
  {
    GuardAsWritten(cityCode);
    Respond(Truthy(PropertyAsWritten(cityCode)), cityCode, apiKey, upstream)
  }
}

/** What each outcome of the handler takes, stated over all inputs. */
module HandlerProperties {
  import opened Types
  import opened Cities
  import opened Forecasts
  import opened ForecastProperties
  import opened Handler

  /** An unknown code is answered 400 before the key is consulted or any
      upstream request is made: the outcome depends on neither. */
  lemma UnknownCityRejected(code: string, key1: Option<string>, up1: Upstream, key2: Option<string>, up2: Upstream)
    requires !IsSupported(code)
    ensures GetCityWeather(code, key1, up1) == GetCityWeather(code, key2, up2) == Error(UnsupportedCity)
    ensures StatusCode(GetCityWeather(code, key1, up1)) == 400
  {
  }

  /** Without a key a supported code is answered 500, whatever the upstream. */
  lemma MissingKeyRejected(code: string, key: Option<string>, up1: Upstream, up2: Upstream)
    requires IsSupported(code) && !KeyConfigured(key)
    ensures GetCityWeather(code, key, up1) == GetCityWeather(code, key, up2) == Error(MissingApiKey)
    ensures StatusCode(GetCityWeather(code, key, up1)) == 500
  {
  }

  /** An error response from the upstream passes its status through. */
  lemma UpstreamStatusPassedThrough(code: string, key: Option<string>, status: int)
    requires IsSupported(code) && KeyConfigured(key)
    ensures GetCityWeather(code, key, HttpError(status)) == Error(UpstreamError(status))
    ensures StatusCode(GetCityWeather(code, key, HttpError(status))) == status
  {
  }

  /** A failure without a response, or a body lacking `records` or
      `records.location`, is answered 500. */
  lemma UnusableResponseIsServerError(code: string, key: Option<string>, up: Upstream)
    requires IsSupported(code) && KeyConfigured(key)
    requires up.NoResponse? || (up.Responded? && Malformed(up.data))
    ensures GetCityWeather(code, key, up) == Error(ServerError)
    ensures StatusCode(GetCityWeather(code, key, up)) == 500
  {
  }

  /** A present but empty location list is answered 404. */
  lemma EmptyLocationsNotFound(code: string, key: Option<string>, desc: Option<string>)
    requires IsSupported(code) && KeyConfigured(key)
    ensures var up := Responded(Some(Body(Some(Records(desc, Some([]))))));
      GetCityWeather(code, key, up) == Error(NoData) && StatusCode(GetCityWeather(code, key, up)) == 404
  {
  }

  /** The 404 outcome arises exactly from an empty location list. */
  lemma NotFoundOnlyForEmptyLocations(code: string, key: Option<string>, up: Upstream)
    requires GetCityWeather(code, key, up) == Error(NoData)
    ensures IsSupported(code) && KeyConfigured(key)
    ensures up.Responded? && !Malformed(up.data) && up.data.value.records.value.location.value == []
  {
  }

  /** A series shorter than the driver's makes the flattening throw, which
      the `catch` block answers with 500. */
  lemma {:induction false} ShortSeriesIsServerError(
    code: string, key: Option<string>, desc: Option<string>, loc: Location, rest: seq<Location>, k: nat)
    requires IsSupported(code) && KeyConfigured(key)
    requires loc.weatherElement.Some?
    requires var es := loc.weatherElement.value; k < |es| && |es[k].time| < |es[0].time|
    ensures var up := Responded(Some(Body(Some(Records(desc, Some([loc] + rest))))));
      GetCityWeather(code, key, up) == Error(ServerError) && StatusCode(GetCityWeather(code, key, up)) == 500
  {
    ShortSeriesFails(loc.weatherElement.value, k);
  }

  /** Once a supported code with a key gets a well-formed body with at
      least one location, the answer is a success unless the first
      location has no `weatherElement` or its flattening throws, and those
      two cases are exactly the ones answered 500. */
  lemma {:induction false} FirstLocationDecides(code: string, key: Option<string>, body: Body)
    requires IsSupported(code) && KeyConfigured(key) && !Malformed(Some(body))
    requires |body.records.value.location.value| > 0
    ensures var loc := body.records.value.location.value[0];
      var o := GetCityWeather(code, key, Responded(Some(body)));
      && (o == Error(ServerError) <==>
            loc.weatherElement.None? || Flattened(loc.weatherElement.value).None?)
      && (o != Error(ServerError) ==> o.Success?)
  {
  }

  /** A successful answer is built from the first location: its name as
      `city`, the requested code as `cityCode`, the dataset description as
      `updateTime`, and one record per entry of the driver's time array. */
  lemma {:induction false} SuccessEnvelope(code: string, key: Option<string>, up: Upstream)
    requires GetCityWeather(code, key, up).Success?
    ensures IsSupported(code) && KeyConfigured(key) && up.Responded? && !Malformed(up.data)
    ensures var records := up.data.value.records.value;
      var locations := records.location.value;
      var d := GetCityWeather(code, key, up).data;
      && |locations| > 0
      && locations[0].weatherElement.Some?
      && var es := locations[0].weatherElement.value;
      && Flattened(es) == Some(d.forecasts)
      && d.city == locations[0].locationName
      && d.cityCode == code
      && d.updateTime == records.datasetDescription
      && |d.forecasts| == |es[0].time|
  {
    var records := up.data.value.records.value;
    var es := records.location.value[0].weatherElement.value;
    DriverSetsPeriods(es);
  }

  /** With equal-length series and every routed parameter present, a
      supported code and a key, the first location is flattened successfully. */
  lemma AlignedSeriesSucceed(
    code: string, key: Option<string>, desc: Option<string>, loc: Location, rest: seq<Location>)
    requires IsSupported(code) && KeyConfigured(key)
    requires loc.weatherElement.Some?
    requires var es := loc.weatherElement.value;
      && |es| > 0
      && (forall k :: 0 <= k < |es| ==> |es[k].time| == |es[0].time|)
      && (forall k, i :: 0 <= k < |es| && 0 <= i < |es[k].time| && Routed(es[k].elementName) ==>
            es[k].time[i].parameter.Some?)
    ensures var up := Responded(Some(Body(Some(Records(desc, Some([loc] + rest))))));
      var o := GetCityWeather(code, key, up);
      o.Success? && o.data.city == loc.locationName && o.data.cityCode == code && StatusCode(o) == 200
  {
  }

  // ---- The city guard as written

  /** `/api/weather/constructor` gets past the guard: without a key it is
      answered 500 (configuration error) instead of 400, and with a key the
      request goes upstream. */
  lemma PrototypeNamePassesGuard(key: Option<string>, up: Upstream)
    ensures !IsSupported("constructor")
    ensures GetCityWeather("constructor", key, up) == Error(UnsupportedCity)
    ensures GetCityWeatherAsWritten("constructor", key, up) != Error(UnsupportedCity)
    ensures !KeyConfigured(key) ==> GetCityWeatherAsWritten("constructor", key, up) == Error(MissingApiKey)
  {
  }

  /** Apart from those member names, the handler as written and the
      corrected one agree on every input. */
  lemma AsWrittenAgreesElsewhere(code: string, key: Option<string>, up: Upstream)
    requires code !in ObjectPrototypeMembers
    ensures GetCityWeatherAsWritten(code, key, up) == GetCityWeather(code, key, up)
  {
  }
}
