/**
 * The weather payload the view consumes (`main.WeatherData` and its parts).
 * Field types follow the backend's structs: humidity, pressure, visibility and
 * wind direction are integers, temperatures and probabilities are reals.
 */
module Payload {

  /** One entry of a `weather` list: condition group, description and icon code. */
  datatype WeatherInfo = WeatherInfo(main: string, description: string, icon: string)

  datatype CurrentWeather = CurrentWeather(
    temp: real,
    feelsLike: real,
    humidity: int,
    pressure: int,
    uvi: real,
    visibility: int,
    windSpeed: real,
    windDeg: int,
    weather: seq<WeatherInfo>)

  datatype DailyTemp = DailyTemp(day: real, min: real, max: real, night: real)

  datatype DailyWeather = DailyWeather(dt: int, temp: DailyTemp, weather: seq<WeatherInfo>, pop: real)

  datatype HourlyWeather = HourlyWeather(dt: int, temp: real, weather: seq<WeatherInfo>, pop: real)

  /** `daily[0]` is today and `hourly[0]` the current hour. */
  datatype WeatherData = WeatherData(current: CurrentWeather, daily: seq<DailyWeather>, hourly: seq<HourlyWeather>)
}
