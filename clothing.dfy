/**
 The clothing decision engine: a total function from a weather summary to a
 recommendation, made of strict temperature thresholds on the day's lowest and
 highest temperature, a rain rule, and a wind override of the jacket.
 */
module Clothing {
  import opened Forecast

  /** The lowest of the temperatures (slices.Min, which panics on an empty slice). */
  function MinTemp(temps: seq<real>): (m: real)
    requires |temps| > 0
    ensures m in temps
    ensures forall t :: t in temps ==> m <= t
  {
    if |temps| == 1 then temps[0]
    else
      var rest := MinTemp(temps[1..]);
      assert temps == [temps[0]] + temps[1..];
      if temps[0] < rest then temps[0] else rest
  }

  /** The highest of the temperatures (slices.Max, which panics on an empty slice). */
  function MaxTemp(temps: seq<real>): (m: real)
    requires |temps| > 0
    ensures m in temps
    ensures forall t :: t in temps ==> t <= m
  {
    if |temps| == 1 then temps[0]
    else
      var rest := MaxTemp(temps[1..]);
      assert temps == [temps[0]] + temps[1..];
      if temps[0] > rest then temps[0] else rest
  }

  /** decideClothes. The jacket threshold is 15 degrees, as the code compares. */
  function Decide(ws: WeatherSummary): (c: ClothingSummary)
    requires |ws.temps| > 0
    ensures 0 <= c.jacketIndex <= 2
    ensures 0 <= c.trousersIndex <= 2
  {
    var minTemp := MinTemp(ws.temps);
    var maxTemp := MaxTemp(ws.temps);
    var hoodie := maxTemp < 21.0 || (maxTemp < 26.0 && (ws.rainingIndex == 2 || ws.rainingIndex == 3));
    var jacket :=
      if maxTemp < 10.0 then 2
      else if maxTemp < 15.0 || (ws.rainingIndex == 3 && minTemp >= 10.0) then 1
      else 0;
    var jacket' := if ws.windIndex >= 1 && minTemp >= 10.0 then 1 else jacket;
    var trousers := if maxTemp > 25.0 then 0 else if maxTemp > 5.0 then 1 else 2;
    ClothingSummary(hoodie, jacket', trousers)
  }

  /** Every temperature of the day is below the bound. */
  predicate AllBelow(temps: seq<real>, bound: real)
  {
    forall t :: t in temps ==> t < bound
  }

  /** Every temperature of the day is at least the bound. */
  predicate AllAtLeast(temps: seq<real>, bound: real)
  {
    forall t :: t in temps ==> t >= bound
  }

  /** A hoodie is advised exactly when the whole day stays below 21 degrees, or it
      rains (lightly or heavily) and the whole day stays below 26 degrees. */
  lemma HoodieRule(ws: WeatherSummary)
    requires |ws.temps| > 0
    ensures Decide(ws).hoodie <==>
      AllBelow(ws.temps, 21.0) || (AllBelow(ws.temps, 26.0) && ws.rainingIndex in {2, 3})
  {
  }

  /** The winter jacket is advised exactly when the whole day stays below 10 degrees
      (the wind override needs a day of at least 10 degrees, so it cannot apply);
      the light jacket exactly when some hour reaches 10 degrees and either the whole
      day stays below 15 degrees or the whole day is at least 10 degrees with heavy
      rain or with wind; otherwise none. */
  lemma JacketRule(ws: WeatherSummary)
    requires |ws.temps| > 0
    ensures Decide(ws).jacketIndex == 2 <==> AllBelow(ws.temps, 10.0)
    ensures Decide(ws).jacketIndex == 1 <==>
      !AllBelow(ws.temps, 10.0) &&
      (AllBelow(ws.temps, 15.0) ||
       (AllAtLeast(ws.temps, 10.0) && (ws.rainingIndex == 3 || ws.windIndex >= 1)))
    ensures Decide(ws).jacketIndex == 0 <==>
      !AllBelow(ws.temps, 15.0) &&
      (!AllAtLeast(ws.temps, 10.0) || (ws.rainingIndex != 3 && ws.windIndex < 1))
  {
  }

  /** Shorts exactly when some hour is above 25 degrees, insulated trousers exactly
      when no hour is above 5 degrees, regular trousers otherwise. */
  lemma TrousersRule(ws: WeatherSummary)
    requires |ws.temps| > 0
    ensures Decide(ws).trousersIndex == 0 <==> exists t :: t in ws.temps && t > 25.0
    ensures Decide(ws).trousersIndex == 2 <==> forall t :: t in ws.temps ==> t <= 5.0
    ensures Decide(ws).trousersIndex == 1 <==>
      (exists t :: t in ws.temps && t > 5.0) && (forall t :: t in ws.temps ==> t <= 25.0)
  {
  }

  /** The strict comparisons at their boundaries: a 21-degree maximum without rain
      gives no hoodie, a 25-degree maximum gives regular trousers, and a 10-degree
      maximum gives the light jacket, not the winter one. */
  lemma Boundaries(ws: WeatherSummary)
    requires |ws.temps| > 0
    ensures MaxTemp(ws.temps) == 21.0 && ws.rainingIndex in {0, 1} ==> !Decide(ws).hoodie
    ensures MaxTemp(ws.temps) == 25.0 ==> Decide(ws).trousersIndex == 1
    ensures MaxTemp(ws.temps) == 10.0 ==> Decide(ws).jacketIndex == 1
  {
  }

  /** A mild windy day: the wind forces the light jacket whatever the temperatures
      alone would give. */
  lemma WindOverride(ws: WeatherSummary)
    requires |ws.temps| > 0
    requires ws.windIndex >= 1 && AllAtLeast(ws.temps, 10.0)
    ensures Decide(ws).jacketIndex == 1
  {
  }

  /** Worked examples: 18/22/20 degrees, 5 m/s, sunny; 2/4/3 degrees, 15 m/s,
      heavy rain; 12/14/13 degrees, strong wind, sunny. */
  lemma Scenarios()
    ensures Decide(WeatherSummary([18.0, 22.0, 20.0], 5.0, 0, 0))
      == ClothingSummary(false, 0, 1)
    ensures Decide(WeatherSummary([2.0, 4.0, 3.0], 15.0, 3, 2))
      == ClothingSummary(true, 2, 2)
    ensures Decide(WeatherSummary([12.0, 14.0, 13.0], 15.0, 0, 2)).jacketIndex == 1
  {
  }
}
