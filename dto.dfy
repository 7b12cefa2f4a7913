/** The response bodies. In Java they are Lombok builders; here plain values. */
module Dto {
  import opened Wrappers
  import opened WeatherConditions

  datatype CurrentWeatherResponse = CurrentWeatherResponse(
    city: string,
    timestamp: string,
    temperature: real,
    humidity: int,
    windSpeed: real,
    condition: WeatherCondition)

  datatype ForecastDay = ForecastDay(
    date: string,
    tempMin: real,
    tempMax: real,
    condition: WeatherCondition,
    precipitation: int)

  datatype ForecastResponse = ForecastResponse(
    city: string,
    generatedAt: string,
    forecast: seq<ForecastDay>)

  /** An error body; `message` is null when the exception carried none. */
  datatype ErrorResponse = ErrorResponse(
    timestamp: string,
    status: int,
    error: string,
    message: Option<string>,
    path: string)
}
