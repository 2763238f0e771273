/** The decision rules of the weather service: city-to-coordinate lookup, the mock current
    weather and mock forecast used without an API key or after an error, the trimming of a live
    forecast, and the farming advice derived from current weather and forecast. The HTTP
    responses are parameters (None when the request or the parsing raises); the clock is an
    integer count of seconds. */
module Weather {
  import opened Wrappers
  import opened Strings

  datatype Coordinates = Coordinates(lat: real, lon: real)

  datatype CityCoordinates = CityCoordinates(city: string, coordinates: Coordinates)

  const DefaultCoordinates := Coordinates(28.6139, 77.2090)

  /** The city table, in its order. */
  const LocationMapping: seq<CityCoordinates> := [
    CityCoordinates("delhi", Coordinates(28.6139, 77.2090)),
    CityCoordinates("mumbai", Coordinates(19.0760, 72.8777)),
    CityCoordinates("bangalore", Coordinates(12.9716, 77.5946)),
    CityCoordinates("kolkata", Coordinates(22.5726, 88.3639)),
    CityCoordinates("chennai", Coordinates(13.0827, 80.2707)),
    CityCoordinates("hyderabad", Coordinates(17.3850, 78.4867)),
    CityCoordinates("pune", Coordinates(18.5204, 73.8567)),
    CityCoordinates("ahmedabad", Coordinates(23.0225, 72.5714)),
    CityCoordinates("jaipur", Coordinates(26.9124, 75.7873)),
    CityCoordinates("lucknow", Coordinates(26.8467, 80.9462))
  ]

  /** `_get_coordinates_from_location`: the coordinates of the first city of the table, in
      order, whose name occurs in the lower-cased location; Delhi when none does. */
  method GetCoordinatesFromLocation(location: string) returns (coordinates: Coordinates)
    ensures (forall k :: 0 <= k < |LocationMapping| ==> !Contains(Lower(location), LocationMapping[k].city)) ==>
      coordinates == DefaultCoordinates
    ensures (exists k :: 0 <= k < |LocationMapping| && Contains(Lower(location), LocationMapping[k].city)) ==>
      exists k :: 0 <= k < |LocationMapping| && Contains(Lower(location), LocationMapping[k].city) &&
        coordinates == LocationMapping[k].coordinates &&
        forall j :: 0 <= j < k ==> !Contains(Lower(location), LocationMapping[j].city)
  {
    var locationLower := Lower(location);
    for i := 0 to |LocationMapping|
      invariant forall j :: 0 <= j < i ==> !Contains(locationLower, LocationMapping[j].city)
    {
      if Contains(locationLower, LocationMapping[i].city) {
        return LocationMapping[i].coordinates;
      }
    }
    return DefaultCoordinates;
  }

  /** The current weather as the service returns it. */
  datatype CurrentWeather = CurrentWeather(
    temperature: real, humidity: real, pressure: real, windSpeed: real, windDirection: real,
    visibility: real, description: string, location: string)

  /** `_get_mock_weather_data` */
  const MockWeather := CurrentWeather(25.0, 65.0, 1013.25, 5.0, 180.0, 10.0, "clear sky", "mock_location")

  /** The fields of a successful current-weather response. */
  datatype WeatherResponse = WeatherResponse(
    temp: real, humidity: real, pressure: real, windSpeed: real, windDeg: real,
    visibility: Option<real>, description: string)

  /** `get_current_weather`: without an API key, or when the request raises, the mock; otherwise
      the response's values, with the visibility in kilometres (0 when absent). */
  function GetCurrentWeather(apiKey: string, location: string, response: Option<WeatherResponse>): (w: CurrentWeather)
    ensures apiKey == "" || response.None? ==> w == MockWeather
    ensures apiKey != "" && response.Some? ==>
      var d := response.value;
      w.temperature == d.temp && w.humidity == d.humidity && w.pressure == d.pressure &&
      w.windSpeed == d.windSpeed && w.windDirection == d.windDeg &&
      w.visibility == d.visibility.GetOr(0.0) / 1000.0 && w.description == d.description && w.location == location
  {
    if apiKey == "" then MockWeather
    else match response
      case None => MockWeather
      case Some(d) =>
        CurrentWeather(d.temp, d.humidity, d.pressure, d.windSpeed, d.windDeg,
                       d.visibility.GetOr(0.0) / 1000.0, d.description, location)
  }

  /** When the service falls back, the caller sees 25 °C and 65 % humidity. */
  lemma FallbackWeather(location: string, response: Option<WeatherResponse>)
    ensures GetCurrentWeather("", location, response).temperature == 25.0
    ensures GetCurrentWeather("", location, response).humidity == 65.0
    ensures GetCurrentWeather("key", location, None) == MockWeather
  {
  }

  /** One forecast entry; the date is a count of seconds. */
  datatype ForecastEntry = ForecastEntry(datetime: int, temperature: real, humidity: real, rainfall: real, description: string)

  datatype Forecast = Forecast(location: string, forecast: seq<ForecastEntry>)

  const SecondsPerDay: int := 24 * 60 * 60

  /** Entry i of the mock forecast: 25 + 2i degrees, 65 - 2i percent humidity, and light rain of
      2.5 on odd days. */
  function MockForecastEntry(now: int, i: nat): (e: ForecastEntry)
    ensures e.temperature == 25.0 + 2.0 * i as real
    ensures e.humidity == 65.0 - 2.0 * i as real
    ensures e.rainfall == if i % 2 == 0 then 0.0 else 2.5
    ensures e.rainfall > 0.0 <==> i % 2 == 1
    ensures e.datetime == now + i * SecondsPerDay
  {
    ForecastEntry(now + i * SecondsPerDay, 25.0 + (i * 2) as real, 65.0 - (i * 2) as real,
                  if i % 2 == 0 then 0.0 else 2.5, if i % 2 == 0 then "clear sky" else "light rain")
  }

  function MockForecast(now: int): (f: seq<ForecastEntry>)
    ensures |f| == 7
    ensures forall i :: 0 <= i < 7 ==> f[i] == MockForecastEntry(now, i)
  {
    seq(7, i requires 0 <= i < 7 => MockForecastEntry(now, i))
  }

  /** `_get_mock_forecast_data`: seven days starting now. */
  method GetMockForecastData(now: int) returns (data: Forecast)
    ensures data.location == "mock_location"
    ensures data.forecast == MockForecast(now)
  {
    var forecast: seq<ForecastEntry> := [];
    for i := 0 to 7
      invariant forecast == MockForecast(now)[..i]
    {
      forecast := forecast + [MockForecastEntry(now, i)];
    }
    data := Forecast("mock_location", forecast);
  }

  /** One item of a live forecast response; `rain3h` is its three-hour rain, when present. */
  datatype ForecastItem = ForecastItem(dtText: int, temp: real, humidity: real, rain3h: Option<real>, description: string)

  /** Python's `s[:n]`: a negative bound counts from the end. */
  function SliceTo<T>(s: seq<T>, n: int): (r: seq<T>)
    ensures n >= 0 ==> |r| == if n < |s| then n else |s|
    ensures n < 0 ==> |r| == if -n < |s| then |s| + n else 0
    ensures r == s[..|r|]
  {
    if n >= 0 then (if n < |s| then s[..n] else s)
    else if -n < |s| then s[..|s| + n] else []
  }

  function EntryOf(item: ForecastItem): ForecastEntry {
    ForecastEntry(item.dtText, item.temp, item.humidity, item.rain3h.GetOr(0.0), item.description)
  }

  /** `get_weather_forecast`: without an API key, or when the request raises, the mock forecast;
      otherwise the first `days * 8` items of the response, converted in order. */
  method GetWeatherForecast(apiKey: string, location: string, days: int, response: Option<seq<ForecastItem>>, now: int)
    returns (data: Forecast)
    ensures apiKey == "" || response.None? ==> data == Forecast("mock_location", MockForecast(now))
    ensures apiKey != "" && response.Some? ==>
      var kept := SliceTo(response.value, days * 8);
      && data.location == location
      && |data.forecast| == |kept|
      && (days >= 0 ==> |data.forecast| <= days * 8)
      && forall i :: 0 <= i < |kept| ==> data.forecast[i] == EntryOf(response.value[i])
  {
    if apiKey == "" || response.None? {
      data := GetMockForecastData(now);
      return;
    }
    var items := SliceTo(response.value, days * 8);
    var forecast: seq<ForecastEntry> := [];
    for i := 0 to |items|
      invariant |forecast| == i
      invariant forall j :: 0 <= j < i ==> forecast[j] == EntryOf(items[j])
    {
      forecast := forecast + [EntryOf(items[i])];
    }
    data := Forecast(location, forecast);
  }

  /** A negative day count drops eight items per day from the end instead of keeping none;
      only when that is at least every item does nothing remain. */
  lemma NegativeDaysDropFromEnd(items: seq<ForecastItem>, days: int)
    requires days < 0
    ensures -8 * days < |items| ==> SliceTo(items, days * 8) == items[..|items| + days * 8]
    ensures -8 * days >= |items| ==> SliceTo(items, days * 8) == []
  {
  }

  /** `get_weather_alerts` */
  function GetWeatherAlerts(location: string): (alerts: seq<string>)
    ensures alerts == []
  {
    []
  }

  const HighHumidityAdvice: string := "High humidity - watch for fungal diseases"
  const HighTemperatureAdvice: string := "High temperature - ensure adequate irrigation"
  const StrongWindAdvice: string := "Strong winds - avoid spraying pesticides"
  const RainExpectedAdvice: string := "Rain expected - plan irrigation accordingly"

  /** Rain in one of the first three forecast entries. */
  predicate UpcomingRain(forecast: seq<ForecastEntry>) {
    exists i :: 0 <= i < |forecast| && i < 3 && forecast[i].rainfall > 0.0
  }

  /** The advice items, each present exactly when its condition holds, in the fixed order
      humidity, temperature, wind, rain. */
  function AdviceFor(current: CurrentWeather, forecast: seq<ForecastEntry>): (items: seq<string>)
    ensures |items| <= 4
    ensures HighHumidityAdvice in items <==> current.humidity > 80.0
    ensures HighTemperatureAdvice in items <==> current.temperature > 35.0
    ensures StrongWindAdvice in items <==> current.windSpeed > 10.0
    ensures RainExpectedAdvice in items <==> UpcomingRain(forecast)
  {
    WeatherConditionAdvice(current) + (if UpcomingRain(forecast) then [RainExpectedAdvice] else [])
  }

  /** The advice items drawn from the current weather alone. */
  function WeatherConditionAdvice(current: CurrentWeather): seq<string> {
    (if current.humidity > 80.0 then [HighHumidityAdvice] else []) +
    (if current.temperature > 35.0 then [HighTemperatureAdvice] else []) +
    (if current.windSpeed > 10.0 then [StrongWindAdvice] else [])
  }

  /** The loop over the first three entries of the forecast that looks for rain. */
  method CheckUpcomingRain(entries: seq<ForecastEntry>) returns (upcomingRain: bool)
    ensures upcomingRain <==> UpcomingRain(entries)
  {
    upcomingRain := false;
    for i := 0 to if |entries| < 3 then |entries| else 3
      invariant upcomingRain <==> exists j :: 0 <= j < i && entries[j].rainfall > 0.0
    {
      if entries[i].rainfall > 0.0 {
        upcomingRain := true;
      }
    }
  }

  datatype WeatherAdvice = WeatherAdvice(currentConditions: CurrentWeather, recommendations: seq<string>)

  /** `get_agricultural_weather_advice`, given the current weather and the three-day forecast
      the service returned. */
  method GetAgriculturalWeatherAdvice(current: CurrentWeather, forecast: Forecast) returns (advice: WeatherAdvice)
    ensures advice.currentConditions == current
    ensures advice.recommendations == AdviceFor(current, forecast.forecast)
  {
    var recommendations: seq<string> := [];
    if current.humidity > 80.0 {
      recommendations := recommendations + [HighHumidityAdvice];
    }
    if current.temperature > 35.0 {
      recommendations := recommendations + [HighTemperatureAdvice];
    }
    if current.windSpeed > 10.0 {
      recommendations := recommendations + [StrongWindAdvice];
    }
    assert recommendations == WeatherConditionAdvice(current);
    var upcomingRain := CheckUpcomingRain(forecast.forecast);
    if upcomingRain {
      recommendations := recommendations + [RainExpectedAdvice];
    }
    advice := WeatherAdvice(current, recommendations);
  }

  /** With the mock data the only advice is the rain warning: day 1 of the mock forecast has rain. */
  lemma MockAdviceIsRainOnly(now: int)
    ensures AdviceFor(MockWeather, MockForecast(now)) == [RainExpectedAdvice]
  {
    assert MockForecast(now)[1].rainfall == 2.5;
  }
}
