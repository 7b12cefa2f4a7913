/** WeatherService: assembles generator results into the current-weather and
    forecast responses. The one business rule lives here: every forecast day's
    maximum is drawn with that day's minimum as its lower bound. */
module Service {
  import opened Wrappers
  import opened JavaNumbers
  import opened Rounding
  import opened Faults
  import opened Config
  import opened WeatherConditions
  import opened Dto
  import opened Generator

  /** The ranges a current reading draws from are all non-empty. */
  predicate CurrentRangesValid(cfg: WeatherConfig) {
    && cfg.temperature.min < cfg.temperature.max
    && cfg.humidity.min <= cfg.humidity.max < MaxInt
    && cfg.windSpeed.min < cfg.windSpeed.max
  }

  /** The ranges a forecast day draws from, other than the day's own
      `[tempMin, temperature.max)`, are non-empty. */
  predicate ForecastRangesValid(cfg: WeatherConfig) {
    && cfg.temperature.forecastMin < cfg.temperature.forecastMax
    && cfg.precipitation.min <= cfg.precipitation.max < MaxInt
  }

  /** Enough for every day's `[tempMin, temperature.max)` to be non-empty too:
      the forecast maximum is on the grid and below the current maximum, so no
      rounded minimum can reach `temperature.max`. */
  predicate ForecastRangesSafe(cfg: WeatherConfig) {
    && ForecastRangesValid(cfg)
    && GridPoint(cfg.temperature.forecastMax, RoundingFactor(cfg))
    && cfg.temperature.forecastMax < cfg.temperature.max
  }

  /** `day` is what one iteration of the forecast loop can build for `date`. */
  ghost predicate ForecastDaySample(cfg: WeatherConfig, date: string, day: ForecastDay) {
    && day.date == date
    && TempMinSample(cfg, day.tempMin)
    && TempMaxSample(cfg, day.tempMin, day.tempMax)
    && day.condition in Values
    && PrecipitationSample(cfg, day.precipitation)
  }

  /** The per-day rule: a day's maximum is never below its minimum, because the
      minimum lies on the grid and the maximum is the rounding of a draw at or
      above it. */
  lemma ForecastDayOrdered(cfg: WeatherConfig, date: string, day: ForecastDay)
    requires ForecastDaySample(cfg, date, day)
    ensures day.tempMin <= day.tempMax
  {
    var f := RoundingFactor(cfg);
    RoundedDrawBounds(day.tempMin, cfg.temperature.forecastMin, cfg.temperature.forecastMax, f);
    RoundedDrawBounds(day.tempMax, day.tempMin, cfg.temperature.max, f);
  }

  /** With the configured bounds on the grid, a forecast day stays inside them. */
  lemma ForecastDayInRange(cfg: WeatherConfig, date: string, day: ForecastDay)
    requires ForecastDaySample(cfg, date, day)
    ensures GridPoint(day.tempMin, RoundingFactor(cfg)) && GridPoint(day.tempMax, RoundingFactor(cfg))
    ensures GridPoint(cfg.temperature.forecastMin, RoundingFactor(cfg)) ==>
              cfg.temperature.forecastMin <= day.tempMin
    ensures GridPoint(cfg.temperature.forecastMax, RoundingFactor(cfg)) ==>
              day.tempMin <= cfg.temperature.forecastMax
    ensures GridPoint(cfg.temperature.max, RoundingFactor(cfg)) ==> day.tempMax <= cfg.temperature.max
    ensures cfg.precipitation.min <= day.precipitation <= cfg.precipitation.max
  {
    var f := RoundingFactor(cfg);
    RoundedDrawBounds(day.tempMin, cfg.temperature.forecastMin, cfg.temperature.forecastMax, f);
    RoundedDrawBounds(day.tempMax, day.tempMin, cfg.temperature.max, f);
  }

  /** The current reading: the configured city, then one call each to the
      timestamp, temperature, humidity, wind speed and condition generators. */
  method GetCurrentWeather(cfg: WeatherConfig, now: LocalDateTime, formatTimestamp: LocalDateTime -> string)
    returns (r: Result<CurrentWeatherResponse, Fault>)
    ensures r.Success? <==> CurrentRangesValid(cfg)
    ensures r.Failure? ==> r.error == BadRange
    ensures r.Success? ==>
              && r.value.city == cfg.city.name
              && r.value.timestamp == formatTimestamp(now)
              && TemperatureSample(cfg, r.value.temperature)
              && HumiditySample(cfg, r.value.humidity)
              && WindSpeedSample(cfg, r.value.windSpeed)
              && r.value.condition in Values
    ensures r.Success? ==>
              GridPoint(r.value.temperature, RoundingFactor(cfg)) &&
              GridPoint(r.value.windSpeed, RoundingFactor(cfg))
  {
    var timestamp := formatTimestamp(now);
    var temperature :- GenerateTemperature(cfg);
    var humidity :- GenerateHumidity(cfg);
    var windSpeed :- GenerateWindSpeed(cfg);
    var condition := GenerateCondition();
    return Success(CurrentWeatherResponse(cfg.city.name, timestamp, temperature, humidity, windSpeed, condition));
  }

  /** The forecast: one day per forecast date, in the dates' order, then the
      configured city and one timestamp. Any draw that fails ends the whole
      request; with no dates nothing is drawn and nothing can fail. */
  method GetForecast(cfg: WeatherConfig, today: int, now: LocalDateTime,
                     formatDate: int -> string, formatTimestamp: LocalDateTime -> string)
    returns (r: Result<ForecastResponse, Fault>)
    ensures r.Failure? ==> r.error == BadRange && ForecastLength(cfg) > 0
    ensures ForecastLength(cfg) > 0 && !ForecastRangesValid(cfg) ==> r.Failure?
    ensures ForecastLength(cfg) == 0 || ForecastRangesSafe(cfg) ==> r.Success?
    ensures r.Success? ==>
              && r.value.city == cfg.city.name
              && r.value.generatedAt == formatTimestamp(now)
              && |r.value.forecast| == ForecastLength(cfg)
              && forall i :: 0 <= i < |r.value.forecast| ==>
                   ForecastDaySample(cfg, formatDate(today + 1 + i), r.value.forecast[i])
    ensures r.Success? ==>
              forall i :: 0 <= i < |r.value.forecast| ==>
                r.value.forecast[i].tempMin <= r.value.forecast[i].tempMax
  {
    var f := RoundingFactor(cfg);
    var dates := GenerateForecastDates(cfg, today, formatDate);
    var forecast: seq<ForecastDay> := [];
    var i := 0;
    while i < |dates|
      invariant i <= |dates| && |forecast| == i
      invariant forall j :: 0 <= j < i ==> ForecastDaySample(cfg, dates[j], forecast[j])
      invariant i > 0 ==> ForecastRangesValid(cfg)
    {
      var date := dates[i];
      var tempMin :- GenerateTempMin(cfg);
      RoundedDrawBounds(tempMin, cfg.temperature.forecastMin, cfg.temperature.forecastMax, f);
      var tempMax :- GenerateTempMax(cfg, tempMin);
      var condition := GenerateCondition();
      var precipitation :- GeneratePrecipitation(cfg);
      forecast := forecast + [ForecastDay(date, tempMin, tempMax, condition, precipitation)];
      i := i + 1;
    }
    forall j | 0 <= j < |forecast|
      ensures forecast[j].tempMin <= forecast[j].tempMax
    {
      ForecastDayOrdered(cfg, dates[j], forecast[j]);
    }
    var generatedAt := formatTimestamp(now);
    return Success(ForecastResponse(cfg.city.name, generatedAt, forecast));
  }
}
