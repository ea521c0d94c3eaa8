/** The records of src/models.py: a geocoded location, one day and one hour of
    weather, and a whole forecast or archive response. Every optional field is
    an `Option`, and the Python defaults are the constructors' default values,
    so `DailyWeather(d)` is the record with only its date set. */
module Models {
  import opened Wrappers
  import opened IsoDate

  /** A JSON number as decoded. Measurements and coordinates are only ever
      copied, never computed on, so the exact representation does not matter. */
  type Float = real

  /** A non-null JSON scalar as it occurs in a measurement column. JSON null is
      the `None` of an `Option<Value>`. */
  datatype Value = Number(number: Float) | Text(text: string)

  datatype GeoLocation = GeoLocation(
    latitude: Float,
    longitude: Float,
    timezone: string,
    name: string,
    country: Option<string> := None)

  /** One day. Field `f` holds the `f` column of the daily payload at this
      day's index (the column names are in WeatherService.DAILY_COLUMNS). */
  datatype DailyWeather = DailyWeather(
    date: Date,
    temperature2mMax: Option<Value> := None,
    temperature2mMin: Option<Value> := None,
    sunrise: Option<Value> := None,
    sunset: Option<Value> := None,
    sunshineDuration: Option<Value> := None,
    daylightDuration: Option<Value> := None,
    windSpeed10mMax: Option<Value> := None,
    precipitationSum: Option<Value> := None,
    weatherCode: Option<Value> := None)

  /** One hour, likewise for the hourly payload. */
  datatype HourlyWeather = HourlyWeather(
    time: DateTime,
    temperature2m: Option<Value> := None,
    windSpeed10m: Option<Value> := None,
    precipitation: Option<Value> := None,
    weatherCode: Option<Value> := None,
    isDay: Option<Value> := None)

  datatype WeatherResponse = WeatherResponse(
    latitude: Float,
    longitude: Float,
    timezone: string,
    daily: seq<DailyWeather> := [],
    hourly: seq<HourlyWeather> := [])

  /** True when a day carries no measurement at all. */
  predicate NoDailyMeasurements(w: DailyWeather) {
    && w.temperature2mMax.None? && w.temperature2mMin.None?
    && w.sunrise.None? && w.sunset.None?
    && w.sunshineDuration.None? && w.daylightDuration.None?
    && w.windSpeed10mMax.None? && w.precipitationSum.None? && w.weatherCode.None?
  }

  predicate NoHourlyMeasurements(w: HourlyWeather) {
    && w.temperature2m.None? && w.windSpeed10m.None? && w.precipitation.None?
    && w.weatherCode.None? && w.isDay.None?
  }

  /** `country` may be left out and is then absent; the other four fields are
      stored as given, and a given country is kept. */
  lemma GeoLocationDefaults(latitude: Float, longitude: Float, timezone: string, name: string, country: string)
    ensures var loc := GeoLocation(latitude, longitude, timezone, name);
      loc.latitude == latitude && loc.longitude == longitude && loc.timezone == timezone
      && loc.name == name && loc.country == None
    ensures GeoLocation(latitude, longitude, timezone, name, Some(country)).country == Some(country)
  {
  }

  /** Only the date is required; all nine measurements default to absent, and
      each one given is kept in its own field. */
  lemma DailyWeatherDefaults(date: Date, temperature2mMax: Value, weatherCode: Value)
    ensures DailyWeather(date).date == date && NoDailyMeasurements(DailyWeather(date))
    ensures var w := DailyWeather(date, temperature2mMax := Some(temperature2mMax), weatherCode := Some(weatherCode));
      w.date == date && w.temperature2mMax == Some(temperature2mMax) && w.weatherCode == Some(weatherCode)
      && w.temperature2mMin.None? && w.sunrise.None? && w.sunset.None?
      && w.sunshineDuration.None? && w.daylightDuration.None? && w.windSpeed10mMax.None?
      && w.precipitationSum.None?
  {
  }

  /** Only the time is required; all five measurements default to absent. */
  lemma HourlyWeatherDefaults(time: DateTime, temperature2m: Value)
    ensures HourlyWeather(time).time == time && NoHourlyMeasurements(HourlyWeather(time))
    ensures var w := HourlyWeather(time, temperature2m := Some(temperature2m));
      w.time == time && w.temperature2m == Some(temperature2m) && w.windSpeed10m.None? && w.isDay.None?
  {
  }

  /** The daily and hourly lists default to empty lists. */
  lemma WeatherResponseDefaults(latitude: Float, longitude: Float, timezone: string)
    ensures var r := WeatherResponse(latitude, longitude, timezone);
      r.latitude == latitude && r.longitude == longitude && r.timezone == timezone
      && r.daily == [] && r.hourly == []
  {
  }
}
