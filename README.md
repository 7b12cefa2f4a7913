# Synthetic weather station: a Dafny model

The weather station serves two read-only endpoints whose data is generated at
random within configured ranges: a current reading (city, timestamp,
temperature, humidity, wind speed, condition) and a multi-day forecast (per day:
date, minimum and maximum temperature, condition, precipitation). This project
models the three pieces of the code that hold logic, and proves what they
promise:

- **WeatherDataGenerator** (`generator.dfy`, with `rounding.dfy`,
  `thread_random.dfy`, `java_numbers.dfy`): one bounded draw per quantity.
  Integer draws include both bounds by drawing below `max + 1`. Real draws are
  rounded to `decimalPlaces` digits with `Math.round(x * 10^d) / 10^d`. The
  forecast maximum is drawn from the day's own minimum upwards. The forecast
  dates are consecutive days starting tomorrow.
- **WeatherService** (`service.dfy`): assembles the two responses. Every
  forecast day has `tempMax >= tempMin`, in the same order as the dates.
- **GlobalExceptionHandler** (`exception_handler.dfy`): maps an exception to
  `{timestamp, status, error, message, path}`.

The configuration (`config.dfy`), the seven-valued condition enum
(`weather_condition.dfy`) and the response bodies (`dto.dfy`) are plain
datatypes.

How the environment is modelled:

- **Random source.** `ThreadLocalRandom` becomes three oracle methods. Each
  returns an arbitrary value of its half-open range, chosen with `:|`. Nothing
  is assumed about the distribution or about how one call relates to another.
  Like the library, each refuses an empty range with an
  IllegalArgumentException: `nextInt(origin, bound)` and
  `nextDouble(origin, bound)` with "bound must be greater than origin",
  `nextInt(bound)` with "bound must be positive". The model follows that error
  path and does not forbid empty ranges with a precondition.
- **Numbers.** Doubles are exact Dafny reals. `Math.round` is
  `floor(y + 1/2)`, clamped to Java's `long` range. `Math.pow(10, d)` is an
  exact positive factor for any `int` exponent, negative ones too. Java `int`
  addition wraps modulo 2^32.
- **Clock and formatting.** `LocalDate.now()` is a parameter `today`, a day
  number. `LocalDateTime.now()` is a parameter `now`. The formatters built from
  the configured date and timestamp patterns are function parameters
  (`formatDate`, `formatTimestamp`) and are not modelled any further. An error
  body's `Instant.now().toString()` is the parameter `timestamp`.
- **Results.** A method that can throw returns
  `Result<T, Fault>`. A `Fault` is classified by the handler that catches it:
  illegal argument, null pointer, or any other exception. Java's nullable
  exception message is an `Option<string>`.

What the proofs establish, in the system's terms:

- Each generator's result is the rounding of some draw from its configured
  range. That result lies on the `10^-d` grid. When the range's bounds lie on
  the grid, the result stays inside the closed range.
- Humidity and precipitation lie in the closed range `[min, max]`. A draw
  fails exactly when `min > max` or when `max` is `Integer.MAX_VALUE`: there
  `max + 1` wraps to `Integer.MIN_VALUE`.
- `GenerateForecastDates` returns `max(days, 0)` entries. Entry `i` is the
  formatted day `today + 1 + i`.
- `GetCurrentWeather` fails exactly when one of its three ranges is empty or
  `humidity.max` is `Integer.MAX_VALUE`. Otherwise every field comes from its
  generator.
- `GetForecast` fills each day from fresh draws and keeps the dates' order.
  It proves `tempMax >= tempMin` for every day. With zero days it draws
  nothing and cannot fail. It must fail when `forecast.days > 0` and the
  forecast temperature range is empty or the precipitation range is invalid
  (`min > max` or `max` is `Integer.MAX_VALUE`). It cannot fail when both of
  those ranges are valid and `forecastMax` is on the grid and below
  `temperature.max`.
- The handler answers an illegal argument with 400 "Bad Request" and the
  exception's own message. It answers everything else with 500
  "Internal Server Error" and a fixed message that does not depend on the
  exception. `path` is always the request URI. Every fault the modelled
  service raises (an empty sampling range) becomes a 400.

Two behaviours of the code worth knowing:

- A zero or negative `forecast.days` gives an empty forecast
  (WeatherDataGenerator.java:151).
- An empty range makes ThreadLocalRandom throw IllegalArgumentException, which
  the handler answers with 400. An integer range with
  `max = Integer.MAX_VALUE` does the same, because `max + 1` wraps.

## Model

| member | source | states |
|---|---|---|
| JavaNumbers.AddInt32 | src/main/java/com/weather/station/service/WeatherDataGenerator.java:60 | Java `int` addition: the exact sum when it fits, otherwise the sum shifted by 2^32 |
| JavaNumbers.IncrementWraps | src/main/java/com/weather/station/service/WeatherDataGenerator.java:58-61 | `max + 1` is `max + 1` below Integer.MAX_VALUE and wraps to Integer.MIN_VALUE at it; a value is below `max + 1` iff it is at most `max` and `max` is not Integer.MAX_VALUE |
| Rounding.Factor | src/main/java/com/weather/station/service/WeatherDataGenerator.java:49 | `Math.pow(10, d)` is positive, `10^d` for `d >= 0` and the inverse of `10^-d` for `d < 0` |
| Rounding.JavaRound | src/main/java/com/weather/station/service/WeatherDataGenerator.java:50 | `Math.round` returns a `long`, and within the `long` range it is within half a unit of its argument, ties going up |
| Rounding.RoundTo | src/main/java/com/weather/station/service/WeatherDataGenerator.java:49-50 | the rounded value is a grid point: an integer `long` multiple of `1 / 10^d`, so it has at most `d` fractional digits |
| Rounding.RoundToMonotone | src/main/java/com/weather/station/service/WeatherDataGenerator.java:50 | rounding preserves order: `x <= y` implies `round(x) <= round(y)` |
| Rounding.RoundToFixesGrid | src/main/java/com/weather/station/service/WeatherDataGenerator.java:50 | a value is left unchanged by rounding iff it is a grid point |
| Rounding.RoundToIsNearest | src/main/java/com/weather/station/service/WeatherDataGenerator.java:50 | within the `long` range the rounded value is within half a grid step of the input, ties rounding up |
| Rounding.RoundToAboveGridPoint | src/main/java/com/weather/station/service/WeatherDataGenerator.java:109-114 | a value at or above a grid point rounds to at least that grid point |
| Rounding.RoundToBelowGridPoint | src/main/java/com/weather/station/service/WeatherDataGenerator.java:46-51 | a value at or below a grid point rounds to at most that grid point |
| ThreadRandom.NextInt | src/main/java/com/weather/station/service/WeatherDataGenerator.java:59-60 | `nextInt(origin, bound)` succeeds iff `origin < bound`, returning a value in `[origin, bound)`, and otherwise throws IllegalArgumentException with the range message |
| ThreadRandom.NextIntBelow | src/main/java/com/weather/station/service/WeatherDataGenerator.java:82 | `nextInt(bound)` succeeds iff `bound > 0`, returning a value in `[0, bound)` |
| ThreadRandom.NextDouble | src/main/java/com/weather/station/service/WeatherDataGenerator.java:47-48 | `nextDouble(origin, bound)` succeeds iff `origin < bound`, returning a value in `[origin, bound)`, and otherwise throws IllegalArgumentException with the range message |
| Generator.RoundedDrawBounds | src/main/java/com/weather/station/service/WeatherDataGenerator.java:46-51 | the rounding of a draw from `[lo, hi)` is a grid point, is at least `lo` when `lo` is a grid point, and at most `hi` when `hi` is one |
| Generator.RoundingFactor | src/main/java/com/weather/station/service/WeatherDataGenerator.java:49 | the factor `Math.pow(10, format.decimalPlaces)` is positive for every exponent and is exactly `10^d` for a non-negative `d` |
| Generator.RoundedNextDouble | src/main/java/com/weather/station/service/WeatherDataGenerator.java:46-51 | draw-then-round fails iff the range is empty, and otherwise returns the rounding of a draw from the range, on the grid and inside grid-aligned bounds |
| Generator.GenerateTemperature | src/main/java/com/weather/station/service/WeatherDataGenerator.java:46-51 | fails iff `temperature.min >= temperature.max`; otherwise a rounded draw from `[min, max)`, on the grid, and in `[min, max]` when both bounds are on the grid |
| Generator.NextIntInclusive | src/main/java/com/weather/station/service/WeatherDataGenerator.java:58-61 | drawing below `max + 1` fails iff `min > max` or `max` is Integer.MAX_VALUE, and otherwise yields a value in `[min, max]` |
| Generator.GenerateHumidity | src/main/java/com/weather/station/service/WeatherDataGenerator.java:58-61 | fails iff `humidity.min > humidity.max` or `humidity.max` is Integer.MAX_VALUE; otherwise a value in `[min, max]` |
| Generator.GenerateWindSpeed | src/main/java/com/weather/station/service/WeatherDataGenerator.java:68-73 | fails iff `windSpeed.min >= windSpeed.max`; otherwise a rounded draw, on the grid, and in `[min, max]` when both bounds are on the grid |
| Generator.GenerateCondition | src/main/java/com/weather/station/service/WeatherDataGenerator.java:80-84 | the index drawn below `values().length` never fails and picks one of the seven listed conditions |
| Generator.GenerateTempMin | src/main/java/com/weather/station/service/WeatherDataGenerator.java:91-97 | fails iff `forecastMin >= forecastMax`; otherwise a rounded draw, on the grid, and in `[forecastMin, forecastMax]` when both bounds are on the grid |
| Generator.GenerateTempMax | src/main/java/com/weather/station/service/WeatherDataGenerator.java:109-114 | fails iff `tempMin >= temperature.max`; otherwise a rounded draw from `[tempMin, max)`, never below a grid-aligned `tempMin` and never above a grid-aligned `max` |
| Generator.GeneratePrecipitation | src/main/java/com/weather/station/service/WeatherDataGenerator.java:121-125 | fails iff `precipitation.min > precipitation.max` or `max` is Integer.MAX_VALUE; otherwise a value in `[min, max]` |
| Generator.GenerateForecastDates | src/main/java/com/weather/station/service/WeatherDataGenerator.java:146-156 | exactly `max(forecast.days, 0)` dates; entry `i` is the formatted day `today + 1 + i`, consecutive days from tomorrow |
| Service.ForecastDayOrdered | src/main/java/com/weather/station/service/WeatherService.java:61-62 | a day built by the forecast loop has `tempMax >= tempMin`, because its maximum is drawn from its own grid-aligned minimum upwards |
| Service.ForecastDayInRange | src/main/java/com/weather/station/service/WeatherService.java:61-70 | a forecast day's temperatures are grid points inside the grid-aligned forecast and current bounds, and its precipitation is in the configured range |
| Service.GetCurrentWeather | src/main/java/com/weather/station/service/WeatherService.java:37-46 | fails iff one of the temperature, humidity or wind ranges is empty or `humidity.max` is Integer.MAX_VALUE, with the range fault; otherwise city is the configured name, timestamp is the formatted clock reading, and each other field is a result its generator can return |
| Service.GetForecast | src/main/java/com/weather/station/service/WeatherService.java:56-80 | on success: configured city, formatted `generatedAt`, `max(days, 0)` days, day `i` dated `today + 1 + i` and built from fresh draws, each with `tempMax >= tempMin`; a failure is the range fault, impossible with no days or with safe ranges, certain with an empty forecast range |
| WeatherConditions.ValueOf | src/main/java/com/weather/station/model/enums/WeatherCondition.java:3-11 | a name that is read as a condition is that condition's name |
| ExceptionHandler.ResolveStatus | src/main/java/com/weather/station/exception/GlobalExceptionHandler.java:41-42 | the status a code resolves to has that code; only 400 and 500 are used |
| ExceptionHandler.ResolveStatusValue | src/main/java/com/weather/station/exception/GlobalExceptionHandler.java:62-63 | a status's code resolves back to that status, so code and reason phrase identify each other |
| ExceptionHandler.Handle | src/main/java/com/weather/station/exception/GlobalExceptionHandler.java:34-88 | path is the request URI; status and reason phrase always agree; 400 iff an illegal argument, with the exception's message; otherwise 500 with the fixed missing-data or unexpected-error message |
| ExceptionHandler.InternalMessageNotExposed | src/main/java/com/weather/station/exception/GlobalExceptionHandler.java:76-88 | for anything but an illegal argument the body is unchanged when the exception's message is replaced, and its message is never null |
| ExceptionHandler.EmptyRangeIsBadRequest | src/main/java/com/weather/station/exception/GlobalExceptionHandler.java:55-66 | the empty-range fault the service raises is answered with 400 "Bad Request" and the random source's message |

## Left out

- Distribution of the draws (uniformity, the 1/7 chance of each condition, variety over 100 draws): statistical, not provable. The random source is modelled only by its range.
- IEEE-754 behaviour: inexact `Math.pow` and products, NaN and infinities, the newer JDK check that `bound - origin` is finite, and the output of `Double.toString`. Exact reals stand in for doubles.
- The system clock and its ordering: `today`, `now` and the error body's timestamp are independent parameters. The model does not say that `generatedAt` is read after the forecast dates. It also leaves out LocalDate's year limits, and with them the DateTimeException that `plusDays` throws beyond them, which the generic handler would answer with 500.
- Building a formatter from a configured pattern. A pattern's syntax, the NullPointerException for an unset pattern (answered with 500), the IllegalArgumentException for a malformed one and the `yyyy-MM-dd` shape of the dates all depend on the pattern text, which is not part of this model.
- generateCurrentTimestamp (WeatherDataGenerator.java:132-136): the clock reading passed through a formatter that is a parameter, so nothing beyond the service contracts (`timestamp` and `generatedAt` are `formatTimestamp(now)`) can be stated. The service applies the formatter directly.
- Java null for unset String settings (for example the city name) and for the boxed fields of the response bodies. Strings are always present here.
- WeatherController: it only delegates to the service.
- Spring's property binding, Lombok builders, getters and setters, logging and JSON serialisation.
- How Spring picks a handler for a subclass (for example NumberFormatException goes to the illegal-argument handler). A Fault is classified by the handler that catches it.
- Thread-safety of ThreadLocalRandom.
- Generator.GenerateCondition: its contract holds of every condition. It cannot be stronger, because any of the seven may be drawn.
- WeatherConditions.ValueOf: Java throws for an unknown name; the model returns None and does not model the exception.
