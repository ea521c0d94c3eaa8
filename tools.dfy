/** The three tools of src/tools.py that the assistant may call. Each is a thin
    layer over the service: the location tool turns "not found" into an error
    reply, the forecast tool forwards its arguments, and the history tool parses
    both date strings before it calls the service at all. */
module Tools {
  import opened Wrappers
  import opened IsoDate
  import opened Models
  import opened WeatherService

  /** A value in a tool's reply dictionary. */
  datatype Field = NullField | NumberField(number: Float) | TextField(text: string)

  type Reply = map<string, Field>

  const NOT_FOUND_PREFIX: string := "Could not find location: "

  /** Why the history tool failed: a date string `date.fromisoformat` refuses,
      or the service call itself. */
  datatype ToolError = InvalidDate(iso: IsoError) | ServiceFailed(service: ServiceError)

  /** `model_dump()` of a location: its five fields, a missing country as null. */
  function LocationDump(loc: GeoLocation): Reply {
    map[
      "latitude" := NumberField(loc.latitude),
      "longitude" := NumberField(loc.longitude),
      "timezone" := TextField(loc.timezone),
      "name" := TextField(loc.name),
      "country" := if loc.country.Some? then TextField(loc.country.value) else NullField]
  }

  /** Reads a location back from a reply, as the assistant does when it passes
      the coordinates and timezone on; an error reply holds no location. */
  function LocationFromReply(reply: Reply): Option<GeoLocation> {
    if "latitude" in reply && reply["latitude"].NumberField?
       && "longitude" in reply && reply["longitude"].NumberField?
       && "timezone" in reply && reply["timezone"].TextField?
       && "name" in reply && reply["name"].TextField?
       && "country" in reply && !reply["country"].NumberField?
    then
      Some(GeoLocation(
        reply["latitude"].number, reply["longitude"].number, reply["timezone"].text, reply["name"].text,
        if reply["country"].TextField? then Some(reply["country"].text) else None))
    else None
  }

  /** A dumped location reads back as itself: the reply loses nothing. */
  lemma LocationDumpRoundTrip(loc: GeoLocation)
    ensures LocationFromReply(LocationDump(loc)) == Some(loc)
  {
    var d := LocationDump(loc);
    assert "latitude" in d && "longitude" in d && "timezone" in d && "name" in d && "country" in d;
  }

  /** `get_location_coordinates`: on "not found" a reply whose only key is
      `error`, holding the fixed message and the name; otherwise exactly the
      five location fields; a service error propagates. */
  function GetLocationCoordinates(fetch: Request -> Result<GeocodeBody, TransportError>, cityName: string): (r: Result<Reply, ServiceError>)
    ensures var g := Geocode(fetch, cityName);
      && (r.Failure? <==> g.Failure?)
      && (r.Failure? ==> r.error == g.error)
      && (g == Success(None) ==>
            r == Success(map["error" := TextField(NOT_FOUND_PREFIX + cityName)]) && LocationFromReply(r.value) == None)
      && (g.Success? && g.value.Some? ==>
            && r.Success?
            && r.value.Keys == {"latitude", "longitude", "timezone", "name", "country"}
            && LocationFromReply(r.value) == g.value)
  {
    var found :- Geocode(fetch, cityName);
    if found.None? then
      var reply := map["error" := TextField(NOT_FOUND_PREFIX + cityName)];
      assert "latitude" !in reply;
      Success(reply)
    else
      LocationDumpRoundTrip(found.value);
      Success(LocationDump(found.value))
  }

  /** `get_weather_forecast`: the forecast service with the arguments as given
      (at most 16 days is documented but not checked). */
  function GetWeatherForecast(fetch: Request -> Result<ForecastBody, TransportError>,
                              latitude: Float, longitude: Float, timezone: string, forecastDays: int := 7): (r: Result<WeatherResponse, ServiceError>)
    ensures var reply := fetch(ForecastRequest(latitude, longitude, timezone, forecastDays));
      && (r.Failure? && r.error.Transport? <==> reply.Failure?)
      && (reply.Success? ==> r == AssembleResponse(reply.value, timezone))
  {
    GetForecast(fetch, latitude, longitude, timezone, forecastDays)
  }

  /** Without a day count the forecast tool asks for seven days; any other
      count, in range or not, is sent unchanged. */
  lemma ForecastToolDays(fetch: Request -> Result<ForecastBody, TransportError>,
                         latitude: Float, longitude: Float, timezone: string, forecastDays: int)
    ensures GetWeatherForecast(fetch, latitude, longitude, timezone)
              == GetForecast(fetch, latitude, longitude, timezone, 7)
    ensures ForecastRequest(latitude, longitude, timezone, forecastDays).params["forecast_days"] == IntParam(forecastDays)
  {
  }

  /** `get_historical_weather_data`: both date strings are parsed, start first,
      before the service is called; there is no check that start <= end. */
  function GetHistoricalWeatherData(fetch: Request -> Result<ForecastBody, TransportError>,
                                    latitude: Float, longitude: Float, timezone: string,
                                    startDate: string, endDate: string): (r: Result<WeatherResponse, ToolError>)
    ensures (r.Failure? && r.error.InvalidDate?) <==> ParseDate(startDate).Failure? || ParseDate(endDate).Failure?
    ensures ParseDate(startDate).Failure? ==> r == Failure(InvalidDate(ParseDate(startDate).error))
    ensures ParseDate(startDate).Success? && ParseDate(endDate).Failure? ==> r == Failure(InvalidDate(ParseDate(endDate).error))
    ensures ParseDate(startDate).Success? && ParseDate(endDate).Success? ==>
      var s := GetHistoricalWeather(fetch, latitude, longitude, timezone, ParseDate(startDate).value, ParseDate(endDate).value);
      r == (if s.Success? then Success(s.value) else Failure(ServiceFailed(s.error)))
  {
    var start :- ParseDate(startDate).MapFailure(e => InvalidDate(e));
    var end :- ParseDate(endDate).MapFailure(e => InvalidDate(e));
    match GetHistoricalWeather(fetch, latitude, longitude, timezone, start, end)
    case Success(response) => Success(response)
    case Failure(e) => Failure(ServiceFailed(e))
  }

  /** With a malformed date the network is never consulted: the result is the
      same whatever the transport would have answered. */
  lemma HistoryToolBadDateSkipsService(fetch: Request -> Result<ForecastBody, TransportError>,
                                       other: Request -> Result<ForecastBody, TransportError>,
                                       latitude: Float, longitude: Float, timezone: string,
                                       startDate: string, endDate: string)
    requires ParseDate(startDate).Failure? || ParseDate(endDate).Failure?
    ensures GetHistoricalWeatherData(fetch, latitude, longitude, timezone, startDate, endDate)
         == GetHistoricalWeatherData(other, latitude, longitude, timezone, startDate, endDate)
  {
  }

  /** With well-formed dates the archive receives the two strings exactly as
      the assistant wrote them, and the reply is the assembled response. */
  lemma HistoryToolSendsGivenDates(fetch: Request -> Result<ForecastBody, TransportError>,
                                   latitude: Float, longitude: Float, timezone: string,
                                   startDate: string, endDate: string)
    requires ParseDate(startDate).Success? && ParseDate(endDate).Success?
    ensures var q := ArchiveRequest(latitude, longitude, timezone, ParseDate(startDate).value, ParseDate(endDate).value);
      var r := GetHistoricalWeatherData(fetch, latitude, longitude, timezone, startDate, endDate);
      && q.url == ARCHIVE_URL
      && q.params["start_date"] == TextParam(startDate) && q.params["end_date"] == TextParam(endDate)
      && (fetch(q).Failure? ==> r == Failure(ServiceFailed(Transport(fetch(q).error))))
      && (fetch(q).Success? ==> (r.Success? <==> AssembleResponse(fetch(q).value, timezone).Success?))
      && (fetch(q).Success? && r.Success? ==> r.value == AssembleResponse(fetch(q).value, timezone).value)
      && (fetch(q).Success? && AssembleResponse(fetch(q).value, timezone).Failure? ==>
            r == Failure(ServiceFailed(AssembleResponse(fetch(q).value, timezone).error)))
  {
    FormatParseDate(startDate);
    FormatParseDate(endDate);
  }

  /** The placeholder "a" is not a date: the tool fails before any request. */
  lemma HistoryToolRejectsPlaceholder(fetch: Request -> Result<ForecastBody, TransportError>,
                                      latitude: Float, longitude: Float, timezone: string)
    ensures GetHistoricalWeatherData(fetch, latitude, longitude, timezone, "a", "a")
         == Failure(InvalidDate(InvalidIsoFormat("a")))
  {
  }
}
