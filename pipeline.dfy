/**
 The forecast-to-clothing flow of the program's default command, from the decoded
 timeseries to the recommendation: select in place, summarise, decide.
 */
module Pipeline {
  import opened Forecast
  import opened Selector
  import opened Aggregator
  import opened Clothing

  /** Either the run panics reading retained point 0, 1 or 2 because fewer than three
      survived the selection, or it produces the summary and the recommendation. */
  datatype Outcome =
    | IndexOutOfRange
    | Advice(weather: WeatherSummary, clothing: ClothingSummary)

  /** Runs the selector over a copy of the timeseries, then the aggregator over the
      retained prefix, then the decision engine over the summary. */
  method Advise(timeseries: seq<ForecastPoint>, now: LocalTime) returns (out: Outcome)
    ensures out.IndexOutOfRange? <==> |Select(timeseries, now)| < 3
    ensures out.Advice? ==>
      var sel := Select(timeseries, now);
      |sel| >= 3 &&
      out.weather.temps == [sel[0].airTemperature, sel[1].airTemperature, sel[2].airTemperature] &&
      out.weather.rainingIndex == RainIndex(sel[0].next12Code) &&
      out.weather.windIndex == WindClass(sel) &&
      out.weather.windSpeed == PeakWind(sel) &&
      out.clothing == Decide(out.weather)
  {
    var a := new ForecastPoint[|timeseries|](k requires 0 <= k < |timeseries| => timeseries[k]);
    assert a[..] == timeseries;
    var n := DeleteUnwanted(a, now);
    if n < 3 {
      return IndexOutOfRange;
    }
    var ws := Summarize(a[..n]);
    out := Advice(ws, Decide(ws));
  }
}
