/** WeatherDataGenerator: one bounded random draw per quantity, real values
    rounded to `format.decimalPlaces` fractional digits, and the forecast dates.
    The configuration is passed to every operation; the clock readings and the
    formatters built from the configured patterns are parameters. */
module Generator {
  import opened Wrappers
  import opened JavaNumbers
  import opened Rounding
  import opened Faults
  import opened ThreadRandom
  import opened Config
  import opened WeatherConditions

  /** A reading of `LocalDateTime.now()`: the day (days since 1970-01-01) and the
      time within it. */
  datatype LocalDateTime = LocalDateTime(epochDay: int, nanoOfDay: nat)

  /** `Math.pow(10, format.decimalPlaces)`. */
  function RoundingFactor(cfg: WeatherConfig): (f: real)
    ensures f > 0.0
    ensures cfg.format.decimalPlaces >= 0 ==> f == Pow10(cfg.format.decimalPlaces) as real
  {
    Factor(cfg.format.decimalPlaces)
  }

  /** `v` is the rounding of some value drawn from `[lo, hi)`. */
  ghost predicate RoundedDraw(v: real, lo: real, hi: real, f: real)
    requires f > 0.0
  {
    exists x :: InHalfOpen(x, lo, hi) && v == RoundTo(x, f)
  }

  /** What a rounded draw is known to satisfy whatever the oracle returned: it lies
      on the grid, and rounding cannot carry it past a bound that lies on the grid. */
  lemma RoundedDrawBounds(v: real, lo: real, hi: real, f: real)
    requires f > 0.0 && RoundedDraw(v, lo, hi, f)
    ensures lo < hi
    ensures GridPoint(v, f)
    ensures GridPoint(lo, f) ==> lo <= v
    ensures GridPoint(hi, f) ==> v <= hi
  {
    var x :| InHalfOpen(x, lo, hi) && v == RoundTo(x, f);
    if GridPoint(lo, f) {
      RoundToAboveGridPoint(x, lo, f);
    }
    if GridPoint(hi, f) {
      RoundToBelowGridPoint(x, hi, f);
    }
  }

  /** The body shared by the four real-valued generators:
      `Math.round(nextDouble(origin, bound) * factor) / factor`. */
  method RoundedNextDouble(origin: real, bound: real, f: real) returns (r: Result<real, Fault>)
    requires f > 0.0
    ensures r.Success? <==> origin < bound
    ensures r.Failure? ==> r.error == BadRange
    ensures r.Success? ==> RoundedDraw(r.value, origin, bound, f)
    ensures r.Success? ==> GridPoint(r.value, f)
    ensures r.Success? && GridPoint(origin, f) ==> origin <= r.value
    ensures r.Success? && GridPoint(bound, f) ==> r.value <= bound
  {
    var x :- NextDouble(origin, bound);
    assert InHalfOpen(x, origin, bound);
    var v := RoundTo(x, f);
    RoundedDrawBounds(v, origin, bound, f);
    return Success(v);
  }

  /** The values each generator can return. */
  ghost predicate TemperatureSample(cfg: WeatherConfig, v: real) {
    RoundedDraw(v, cfg.temperature.min, cfg.temperature.max, RoundingFactor(cfg))
  }

  predicate HumiditySample(cfg: WeatherConfig, h: int) {
    cfg.humidity.min <= h <= cfg.humidity.max
  }

  ghost predicate WindSpeedSample(cfg: WeatherConfig, v: real) {
    RoundedDraw(v, cfg.windSpeed.min, cfg.windSpeed.max, RoundingFactor(cfg))
  }

  ghost predicate TempMinSample(cfg: WeatherConfig, v: real) {
    RoundedDraw(v, cfg.temperature.forecastMin, cfg.temperature.forecastMax, RoundingFactor(cfg))
  }

  ghost predicate TempMaxSample(cfg: WeatherConfig, tempMin: real, v: real) {
    RoundedDraw(v, tempMin, cfg.temperature.max, RoundingFactor(cfg))
  }

  predicate PrecipitationSample(cfg: WeatherConfig, p: int) {
    cfg.precipitation.min <= p <= cfg.precipitation.max
  }

  /** A temperature in `[temperature.min, temperature.max)`, rounded. */
  method GenerateTemperature(cfg: WeatherConfig) returns (r: Result<real, Fault>)
    ensures r.Success? <==> cfg.temperature.min < cfg.temperature.max
    ensures r.Failure? ==> r.error == BadRange
    ensures r.Success? ==> TemperatureSample(cfg, r.value) && GridPoint(r.value, RoundingFactor(cfg))
    ensures r.Success? && GridPoint(cfg.temperature.min, RoundingFactor(cfg)) &&
            GridPoint(cfg.temperature.max, RoundingFactor(cfg)) ==>
              cfg.temperature.min <= r.value <= cfg.temperature.max
  {
    r := RoundedNextDouble(cfg.temperature.min, cfg.temperature.max, RoundingFactor(cfg));
  }

  /** Both ends of an `int` range included, by drawing below `max + 1`, which
      wraps to Integer.MIN_VALUE when `max` is Integer.MAX_VALUE. */
  method NextIntInclusive(min: Int32, max: Int32) returns (r: Result<int, Fault>)
    ensures r.Success? <==> min <= max < MaxInt
    ensures r.Failure? ==> r.error == BadRange
    ensures r.Success? ==> min <= r.value <= max
  {
    IncrementWraps(max, min);
    var bound := AddInt32(max, 1);
    var n :- NextInt(min, bound);
    IncrementWraps(max, n);
    return Success(n);
  }

  /** A humidity percentage in `[humidity.min, humidity.max]`. */
  method GenerateHumidity(cfg: WeatherConfig) returns (r: Result<int, Fault>)
    ensures r.Success? <==> cfg.humidity.min <= cfg.humidity.max < MaxInt
    ensures r.Failure? ==> r.error == BadRange
    ensures r.Success? ==> HumiditySample(cfg, r.value)
  {
    r := NextIntInclusive(cfg.humidity.min, cfg.humidity.max);
  }

  /** A wind speed in `[windSpeed.min, windSpeed.max)`, rounded. */
  method GenerateWindSpeed(cfg: WeatherConfig) returns (r: Result<real, Fault>)
    ensures r.Success? <==> cfg.windSpeed.min < cfg.windSpeed.max
    ensures r.Failure? ==> r.error == BadRange
    ensures r.Success? ==> WindSpeedSample(cfg, r.value) && GridPoint(r.value, RoundingFactor(cfg))
    ensures r.Success? && GridPoint(cfg.windSpeed.min, RoundingFactor(cfg)) &&
            GridPoint(cfg.windSpeed.max, RoundingFactor(cfg)) ==>
              cfg.windSpeed.min <= r.value <= cfg.windSpeed.max
  {
    r := RoundedNextDouble(cfg.windSpeed.min, cfg.windSpeed.max, RoundingFactor(cfg));
  }

  /** One of the seven conditions, picked by an index below `values().length`. */
  method GenerateCondition() returns (c: WeatherCondition)
    ensures c in Values
  {
    var index := NextIntBelow(|Values|);
    if index.Success? {
      c := Values[index.value];
    } else {
      assert false;
    }
  }

  /** A forecast minimum in `[forecastMin, forecastMax)`, rounded. */
  method GenerateTempMin(cfg: WeatherConfig) returns (r: Result<real, Fault>)
    ensures r.Success? <==> cfg.temperature.forecastMin < cfg.temperature.forecastMax
    ensures r.Failure? ==> r.error == BadRange
    ensures r.Success? ==> TempMinSample(cfg, r.value) && GridPoint(r.value, RoundingFactor(cfg))
    ensures r.Success? && GridPoint(cfg.temperature.forecastMin, RoundingFactor(cfg)) &&
            GridPoint(cfg.temperature.forecastMax, RoundingFactor(cfg)) ==>
              cfg.temperature.forecastMin <= r.value <= cfg.temperature.forecastMax
  {
    r := RoundedNextDouble(cfg.temperature.forecastMin, cfg.temperature.forecastMax, RoundingFactor(cfg));
  }

  /** A forecast maximum in `[tempMin, temperature.max)`, rounded: the day's own
      minimum is the lower bound of the draw. */
  method GenerateTempMax(cfg: WeatherConfig, tempMin: real) returns (r: Result<real, Fault>)
    ensures r.Success? <==> tempMin < cfg.temperature.max
    ensures r.Failure? ==> r.error == BadRange
    ensures r.Success? ==> TempMaxSample(cfg, tempMin, r.value) && GridPoint(r.value, RoundingFactor(cfg))
    ensures r.Success? && GridPoint(tempMin, RoundingFactor(cfg)) ==> tempMin <= r.value
    ensures r.Success? && GridPoint(cfg.temperature.max, RoundingFactor(cfg)) ==>
              r.value <= cfg.temperature.max
  {
    r := RoundedNextDouble(tempMin, cfg.temperature.max, RoundingFactor(cfg));
  }

  /** A precipitation percentage in `[precipitation.min, precipitation.max]`. */
  method GeneratePrecipitation(cfg: WeatherConfig) returns (r: Result<int, Fault>)
    ensures r.Success? <==> cfg.precipitation.min <= cfg.precipitation.max < MaxInt
    ensures r.Failure? ==> r.error == BadRange
    ensures r.Success? ==> PrecipitationSample(cfg, r.value)
  {
    r := NextIntInclusive(cfg.precipitation.min, cfg.precipitation.max);
  }

  /** How many dates the forecast has: the loop runs `forecast.days` times, so
      not at all when that is zero or negative. */
  function ForecastLength(cfg: WeatherConfig): (n: nat) {
    if cfg.forecast.days < 0 then 0 else cfg.forecast.days
  }

  /** The forecast dates: `forecast.days` consecutive days starting tomorrow, each
      formatted with the formatter built from `format.date`. */
  method GenerateForecastDates(cfg: WeatherConfig, today: int, formatDate: int -> string)
    returns (dates: seq<string>)
    ensures |dates| == ForecastLength(cfg)
    ensures forall i :: 0 <= i < |dates| ==> dates[i] == formatDate(today + 1 + i)
  {
    dates := [];
    var tomorrow := today + 1;
    var i := 0;
    while i < cfg.forecast.days
      invariant |dates| == i
      invariant i <= ForecastLength(cfg)
      invariant forall j :: 0 <= j < i ==> dates[j] == formatDate(tomorrow + j)
    {
      dates := dates + [formatDate(tomorrow + i)];
      i := i + 1;
    }
  }
}
