/**
 The values that flow through the forecast-to-clothing pipeline of the command-line
 weather adviser: forecast points as delivered by the provider, the weather summary
 built from the selected points, and the clothing recommendation derived from it.
 */
module Forecast {

  /** A local calendar position: `date` is an abstract day number (tomorrow is
      `date + 1`) and `hour` the local hour of the day. */
  datatype LocalTime = LocalTime(date: int, hour: int)

  /** One entry of the provider's timeseries, reduced to the fields the core reads:
      its local time, the instant air temperature (degrees C), the instant wind
      speed (m/s) and the symbol code summarising the next 12 hours. */
  datatype ForecastPoint = ForecastPoint(
    time: LocalTime,
    airTemperature: real,
    windSpeed: real,
    next12Code: string)

  /** The zero value of a forecast point; what the in-place deletion leaves in the
      slots past the retained prefix. */
  const ZeroPoint := ForecastPoint(LocalTime(0, 0), 0.0, 0.0, "")

  /** Temperatures are positional (morning, noon, afternoon). The rain index is
      0 sunny, 1 cloudy, 2 light rain, 3 heavy rain; the wind index is 0 up to
      8 m/s, 1 above 8 and up to 12 m/s, 2 above 12 m/s. */
  datatype WeatherSummary = WeatherSummary(
    temps: seq<real>,
    windSpeed: real,
    rainingIndex: int,
    windIndex: int)

  /** The recommendation: hoodie or T-shirt; jacket 0 none, 1 light, 2 winter;
      trousers 0 shorts, 1 regular, 2 insulated. */
  datatype ClothingSummary = ClothingSummary(
    hoodie: bool,
    jacketIndex: int,
    trousersIndex: int)
}
