/**
 * The provider's nested "current weather" record and its flattening into the
 * endpoint's `CurrentWeatherData`. Field names follow the two JSON shapes.
 * Every measurement is a JavaScript number, modelled as `real`.
 */
module Weather {
  import opened Wrappers

  datatype Coord = Coord(lat: real, lon: real)
  datatype Main = Main(temp: real, feels_like: real, temp_min: real, temp_max: real,
                       pressure: real, humidity: real)
  datatype Wind = Wind(speed: real, deg: real)
  datatype Clouds = Clouds(all: real)
  datatype Sys = Sys(country: string, sunrise: real, sunset: real)

  /** A `rain` or `snow` object: `{'1h'?: number, '3h'?: number}`. */
  datatype Precipitation = Precipitation(oneHour: Option<real>, threeHours: Option<real>)

  /** One element of `weather`, passed through untouched. */
  datatype WeatherCondition = WeatherCondition(id: real, main: string, description: string, icon: string)

  /**
   * The provider's response. The nested objects the handler dereferences
   * are optional here: a response without one of them makes the handler
   * throw a `TypeError`, which the model must be able to express.
   */
  datatype RawWeather = RawWeather(
    coord: Option<Coord>,
    weather: seq<WeatherCondition>,
    main: Option<Main>,
    wind: Option<Wind>,
    clouds: Option<Clouds>,
    rain: Option<Precipitation>,
    snow: Option<Precipitation>,
    dt: real,
    sys: Option<Sys>,
    timezone: real,
    name: string)

  /** The endpoint's flat output record. */
  datatype CurrentWeatherData = CurrentWeatherData(
    clouds_all: real,
    country: string,
    dt: real,
    humidity: real,
    lat: real,
    lon: real,
    name: string,
    pressure: real,
    rain_1h: real,
    rain_3h: real,
    snow_1h: real,
    snow_3h: real,
    sunrise: real,
    sunset: real,
    temp: real,
    temp_feels_like: real,
    temp_max: real,
    temp_min: real,
    timezone: real,
    units: string,
    weather: seq<WeatherCondition>,
    wind_deg: real,
    wind_speed: real)

  datatype Window = OneHour | ThreeHours

  /** `p['1h']` or `p['3h']`: `undefined` when the key is absent. */
  function Reading(p: Precipitation, window: Window): Option<real> {
    match window
    case OneHour => p.oneHour
    case ThreeHours => p.threeHours
  }

  /** `(p && p[window]) || 0` with JavaScript's short-circuit operators on an optional number. */
  function Amount(p: Option<Precipitation>, window: Window): (amount: real)
    ensures p.Some? && Reading(p.value, window).Some? ==> amount == Reading(p.value, window).value
    ensures p.None? || Reading(p.value, window).None? ==> amount == 0.0
  {
    var conjunction: Option<real> := if p.None? then None else Reading(p.value, window);
    if conjunction.Some? && conjunction.value != 0.0 then conjunction.value else 0.0
  }

  /** The handler dereferences `clouds`, `sys`, `main`, `coord` and `wind`; all must be present. */
  predicate WellShaped(raw: RawWeather) {
    raw.coord.Some? && raw.main.Some? && raw.wind.Some? && raw.clouds.Some? && raw.sys.Some?
  }

  /**
   * Builds `CurrentWeatherData` from a provider response, echoing `units`;
   * `None` when evaluating the object literal would throw.
   */
  function Flatten(raw: RawWeather, units: string): (data: Option<CurrentWeatherData>)
    ensures data.Some? <==> WellShaped(raw)
    ensures data.Some? ==> data.value.units == units
  {
    if !WellShaped(raw) then None
    else
      var main := raw.main.value;
      var sys := raw.sys.value;
      Some(CurrentWeatherData(
        clouds_all := raw.clouds.value.all,
        country := sys.country,
        dt := raw.dt,
        humidity := main.humidity,
        lat := raw.coord.value.lat,
        lon := raw.coord.value.lon,
        name := raw.name,
        pressure := main.pressure,
        rain_1h := Amount(raw.rain, OneHour),
        rain_3h := Amount(raw.rain, ThreeHours),
        snow_1h := Amount(raw.snow, OneHour),
        snow_3h := Amount(raw.snow, ThreeHours),
        sunrise := sys.sunrise,
        sunset := sys.sunset,
        temp := main.temp,
        temp_feels_like := main.feels_like,
        temp_max := main.temp_max,
        temp_min := main.temp_min,
        timezone := raw.timezone,
        units := units,
        weather := raw.weather,
        wind_deg := raw.wind.value.deg,
        wind_speed := raw.wind.value.speed))
  }

  /** Each precipitation field is the provider's reading when both levels are present, else 0. */
  lemma PrecipitationDefaults(raw: RawWeather, units: string)
    requires WellShaped(raw)
    ensures var d := Flatten(raw, units).value;
      && (raw.rain.Some? && raw.rain.value.oneHour.Some? ==> d.rain_1h == raw.rain.value.oneHour.value)
      && (raw.rain.None? || raw.rain.value.oneHour.None? ==> d.rain_1h == 0.0)
      && (raw.rain.Some? && raw.rain.value.threeHours.Some? ==> d.rain_3h == raw.rain.value.threeHours.value)
      && (raw.rain.None? || raw.rain.value.threeHours.None? ==> d.rain_3h == 0.0)
      && (raw.snow.Some? && raw.snow.value.oneHour.Some? ==> d.snow_1h == raw.snow.value.oneHour.value)
      && (raw.snow.None? || raw.snow.value.oneHour.None? ==> d.snow_1h == 0.0)
      && (raw.snow.Some? && raw.snow.value.threeHours.Some? ==> d.snow_3h == raw.snow.value.threeHours.value)
      && (raw.snow.None? || raw.snow.value.threeHours.None? ==> d.snow_3h == 0.0)
  {
  }

  /** `rain: {'1h': 2.5}` with no `'3h'` gives `rain_1h == 2.5` and `rain_3h == 0`; no `snow` gives zeros. */
  lemma RainOneHourOnly(raw: RawWeather, units: string)
    requires WellShaped(raw)
    requires raw.rain == Some(Precipitation(Some(2.5), None)) && raw.snow.None?
    ensures var d := Flatten(raw, units).value;
      d.rain_1h == 2.5 && d.rain_3h == 0.0 && d.snow_1h == 0.0 && d.snow_3h == 0.0
  {
  }

  /** Every other output field is the corresponding provider field. */
  lemma DirectCopies(raw: RawWeather, units: string)
    requires WellShaped(raw)
    ensures var d := Flatten(raw, units).value;
      && d.clouds_all == raw.clouds.value.all
      && d.country == raw.sys.value.country && d.sunrise == raw.sys.value.sunrise && d.sunset == raw.sys.value.sunset
      && d.dt == raw.dt && d.timezone == raw.timezone && d.name == raw.name && d.weather == raw.weather
      && d.lat == raw.coord.value.lat && d.lon == raw.coord.value.lon
      && d.humidity == raw.main.value.humidity && d.pressure == raw.main.value.pressure
      && d.temp == raw.main.value.temp && d.temp_feels_like == raw.main.value.feels_like
      && d.temp_max == raw.main.value.temp_max && d.temp_min == raw.main.value.temp_min
      && d.wind_deg == raw.wind.value.deg && d.wind_speed == raw.wind.value.speed
  {
  }

  /** A provider response carrying exactly the values of a flat record, every precipitation reading present. */
  function Nest(data: CurrentWeatherData): RawWeather {
    RawWeather(
      coord := Some(Coord(data.lat, data.lon)),
      weather := data.weather,
      main := Some(Main(data.temp, data.temp_feels_like, data.temp_min, data.temp_max, data.pressure, data.humidity)),
      wind := Some(Wind(data.wind_speed, data.wind_deg)),
      clouds := Some(Clouds(data.clouds_all)),
      rain := Some(Precipitation(Some(data.rain_1h), Some(data.rain_3h))),
      snow := Some(Precipitation(Some(data.snow_1h), Some(data.snow_3h))),
      dt := data.dt,
      sys := Some(Sys(data.country, data.sunrise, data.sunset)),
      timezone := data.timezone,
      name := data.name)
  }

  /**
   * Flattening loses and cross-wires nothing: every flat record is obtained
   * back from the provider response that carries its values.
   */
  lemma FlattenNestRoundTrip(data: CurrentWeatherData)
    ensures Flatten(Nest(data), data.units) == Some(data)
  {
  }
}
