/** The settings bound from the `weather.*` properties at start-up. They are
    read-only afterwards; nothing checks that a range has `min <= max`, so the
    samplers' contracts say what happens either way. */
module Config {
  import opened JavaNumbers

  datatype CityConfig = CityConfig(name: string, country: string, timezone: string)

  datatype TemperatureConfig =
    TemperatureConfig(min: real, max: real, forecastMin: real, forecastMax: real)

  datatype HumidityConfig = HumidityConfig(min: Int32, max: Int32)

  datatype WindSpeedConfig = WindSpeedConfig(min: real, max: real)

  datatype PrecipitationConfig = PrecipitationConfig(min: Int32, max: Int32)

  datatype ForecastConfig = ForecastConfig(days: Int32)

  /** The timestamp and date patterns, and the number of fractional digits kept. */
  datatype FormatConfig = FormatConfig(timestamp: string, date: string, decimalPlaces: Int32)

  datatype WeatherConfig = WeatherConfig(
    city: CityConfig,
    temperature: TemperatureConfig,
    humidity: HumidityConfig,
    windSpeed: WindSpeedConfig,
    precipitation: PrecipitationConfig,
    forecast: ForecastConfig,
    format: FormatConfig)
}
