/**
 The weather-summary aggregator: temperatures from the first three selected points,
 a rain index from the first point's next-12-hours symbol code, and a wind index and
 peak wind speed from a scan over every selected point.
 */
module Aggregator {
  import opened Forecast

  /** Symbol codes read as overcast. */
  const CloudyCodes: set<string> := {
    "partlycloudy_day", "partlycloudy_night", "partlycloudy_polartwilight", "cloudy"
  }

  /** Symbol codes read as light rain (including light snow, sleet and fog). */
  const DrizzleCodes: set<string> := {
    "lightsnowshowers_day", "lightsnowshowers_night", "lightsnowshowers_polartwilight",
    "lightrainshowers_day", "lightrainshowers_night", "lightrainshowers_polartwilight",
    "lightsleet",
    "lightsleetshowers_day", "lightsleetshowers_night", "lightsleetshowers_polartwilight",
    "lightrain", "fog",
    "lightrainshowersandthunder_day", "lightrainshowersandthunder_night",
    "lightrainshowersandthunder_polartwilight",
    "lightsnowandthunder",
    "lightssleetshowersandthunder_day", "lightssleetshowersandthunder_night",
    "lightssleetshowersandthunder_polartwilight",
    "lightsleetandthunder"
  }

  /** Symbol codes read as heavy rain (including snow and sleet). */
  const RainCodes: set<string> := {
    "heavyrainandthunder", "heavysnowandthunder", "rainandthunder",
    "heavysleetshowersandthunder_day", "heavysleetshowersandthunder_night",
    "heavysleetshowersandthunder_polartwilight",
    "heavysnow",
    "heavyrainshowers_day", "heavyrainshowers_night", "heavyrainshowers_polartwilight",
    "heavyrain",
    "heavysleetshowers_day", "heavysleetshowers_night", "heavysleetshowers_polartwilight",
    "snow",
    "heavyrainshowersandthunder_day", "heavyrainshowersandthunder_night",
    "heavyrainshowersandthunder_polartwilight",
    "snowshowers_day", "snowshowers_night", "snowshowers_polartwilight",
    "snowshowersandthunder_day", "snowshowersandthunder_night",
    "snowshowersandthunder_polartwilight",
    "heavysleetandthunder",
    "rainshowersandthunder_day", "rainshowersandthunder_night",
    "rainshowersandthunder_polartwilight",
    "rain", "rainshowers_day", "rainshowers_night", "rainshowers_polartwilight",
    "sleetandthunder", "sleet",
    "sleetshowersandthunder_day", "sleetshowersandthunder_night",
    "sleetshowersandthunder_polartwilight",
    "snowandthunder",
    "heavysnowshowersandthunder_day", "heavysnowshowersandthunder_night",
    "heavysnowshowersandthunder_polartwilight",
    "heavysnowshowers_day", "heavysnowshowers_night", "heavysnowshowers_polartwilight"
  }

  /** The first letter of a symbol code, or a space for the empty code. */
  function Initial(code: string): char
  {
    if code == [] then ' ' else code[0]
  }

  /** The three code sets are told apart by their first letter: light-rain codes
      start with l or f, heavy-rain codes with h, r or s, overcast codes with p or c. */
  lemma {:induction false} CodeInitials(code: string)
    ensures code in DrizzleCodes ==> Initial(code) == 'l' || Initial(code) == 'f'
    ensures code in RainCodes ==> Initial(code) == 'h' || Initial(code) == 'r' || Initial(code) == 's'
    ensures code in CloudyCodes ==> Initial(code) == 'p' || Initial(code) == 'c'
  {
  }

  /** The rain index a symbol code stands for, checked in the source's order:
      light rain, then heavy rain, then overcast. */
  function RainIndex(code: string): (r: int)
    ensures 0 <= r <= 3
  {
    if code in DrizzleCodes then 2
    else if code in RainCodes then 3
    else if code in CloudyCodes then 1
    else 0
  }

  /** Because the code sets are disjoint, the order of the checks never matters:
      2 exactly for light-rain codes, 3 exactly for heavy-rain codes, 1 exactly for
      overcast codes, 0 for every other code. */
  lemma RainIndexMeaning(code: string)
    ensures RainIndex(code) == 2 <==> code in DrizzleCodes
    ensures RainIndex(code) == 3 <==> code in RainCodes
    ensures RainIndex(code) == 1 <==> code in CloudyCodes
    ensures RainIndex(code) == 0 <==> code !in DrizzleCodes + RainCodes + CloudyCodes
  {
    CodeInitials(code);
  }

  /** One turn of the wind loop: a moderate speed raises a calm index to 1, a strong
      speed sets 2, anything else leaves the index as it was. */
  function WindStep(index: int, speed: real): int
  {
    if speed <= 12.0 && speed > 8.0 && index == 0 then 1
    else if speed > 12.0 then 2
    else index
  }

  /** The wind index the summary should carry: 2 if some point blows above 12 m/s,
      else 1 if some point blows above 8 m/s, else 0. */
  function WindClass(s: seq<ForecastPoint>): int
  {
    if exists k :: 0 <= k < |s| && s[k].windSpeed > 12.0 then 2
    else if exists k :: 0 <= k < |s| && 8.0 < s[k].windSpeed <= 12.0 then 1
    else 0
  }

  /** Scanning one more point moves the wind class exactly as one turn of the loop
      moves the index. */
  lemma WindClassStep(s: seq<ForecastPoint>, p: ForecastPoint)
    ensures WindClass(s + [p]) == WindStep(WindClass(s), p.windSpeed)
  {
    var t := s + [p];
    assert t[|s|] == p;
    assert forall k :: 0 <= k < |s| ==> t[k] == s[k];
    if p.windSpeed > 12.0 {
      assert t[|s|].windSpeed > 12.0;
    } else if 8.0 < p.windSpeed {
      assert 8.0 < t[|s|].windSpeed <= 12.0;
      if exists k :: 0 <= k < |s| && s[k].windSpeed > 12.0 {
        var k :| 0 <= k < |s| && s[k].windSpeed > 12.0;
        assert t[k].windSpeed > 12.0;
      }
    } else {
      if exists k :: 0 <= k < |s| && s[k].windSpeed > 12.0 {
        var k :| 0 <= k < |s| && s[k].windSpeed > 12.0;
        assert t[k].windSpeed > 12.0;
      } else if exists k :: 0 <= k < |s| && 8.0 < s[k].windSpeed <= 12.0 {
        var k :| 0 <= k < |s| && 8.0 < s[k].windSpeed <= 12.0;
        assert 8.0 < t[k].windSpeed <= 12.0;
      }
    }
  }

  /** The wind index never drops as further points are scanned. */
  lemma WindClassMonotone(s: seq<ForecastPoint>, t: seq<ForecastPoint>)
    ensures 0 <= WindClass(s) <= WindClass(s + t) <= 2
  {
    var u := s + t;
    if exists k :: 0 <= k < |s| && s[k].windSpeed > 12.0 {
      var k :| 0 <= k < |s| && s[k].windSpeed > 12.0;
      assert u[k] == s[k];
    } else if exists k :: 0 <= k < |s| && 8.0 < s[k].windSpeed <= 12.0 {
      var k :| 0 <= k < |s| && 8.0 < s[k].windSpeed <= 12.0;
      assert u[k] == s[k];
    }
  }

  /** The highest wind speed among the points, and 0 when none blows at all. */
  function PeakWind(s: seq<ForecastPoint>): (r: real)
    ensures 0.0 <= r
    ensures forall k :: 0 <= k < |s| ==> s[k].windSpeed <= r
    ensures r == 0.0 || exists k :: 0 <= k < |s| && s[k].windSpeed == r
  {
    if s == [] then 0.0
    else
      var m := PeakWind(s[..|s| - 1]);
      assert forall k :: 0 <= k < |s| - 1 ==> s[..|s| - 1][k] == s[k];
      if m < s[|s| - 1].windSpeed then s[|s| - 1].windSpeed else m
  }

  /** The summary built from the selected timeseries (which must hold at least three
      points): the three temperatures in order, the rain index of the first point's
      next-12-hours symbol, and the wind index and peak speed over all points. */
  method Summarize(timeseries: seq<ForecastPoint>) returns (ws: WeatherSummary)
    requires |timeseries| >= 3
    ensures ws.temps == [timeseries[0].airTemperature, timeseries[1].airTemperature,
                         timeseries[2].airTemperature]
    ensures ws.rainingIndex == RainIndex(timeseries[0].next12Code)
    ensures ws.windIndex == WindClass(timeseries)
    ensures ws.windSpeed == PeakWind(timeseries)
  {
    var temps := [0.0, 0.0, 0.0];
    temps := temps[0 := timeseries[0].airTemperature];
    temps := temps[1 := timeseries[1].airTemperature];
    temps := temps[2 := timeseries[2].airTemperature];
    var windIndex := 0;
    var windSpeed := 0.0;
    var rainingIndex := 0;

    var code := timeseries[0].next12Code;
    if code in DrizzleCodes && rainingIndex != 3 {
      rainingIndex := 2;
    } else if code in RainCodes {
      rainingIndex := 3;
    } else if code in CloudyCodes && rainingIndex == 0 {
      rainingIndex := 1;
    }

    for i := 0 to |timeseries|
      invariant windIndex == WindClass(timeseries[..i])
      invariant windSpeed == PeakWind(timeseries[..i])
    {
      var data := timeseries[i];
      WindClassStep(timeseries[..i], data);
      assert timeseries[..i + 1] == timeseries[..i] + [data];
      if data.windSpeed <= 12.0 && data.windSpeed > 8.0 && windIndex == 0 {
        windIndex := 1;
      } else if data.windSpeed > 12.0 {
        windIndex := 2;
      }
      if windSpeed < data.windSpeed {
        windSpeed := data.windSpeed;
      }
    }
    assert timeseries[..|timeseries|] == timeseries;
    ws := WeatherSummary(temps, windSpeed, rainingIndex, windIndex);
  }
}
