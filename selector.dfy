/**
 The timeseries selector: drops every forecast point that is not on the target day
 or not at one of the three target local hours, compacting the timeseries in place.
 */
module Selector {
  import opened Forecast

  /** Once the local hour is past this, the forecast for tomorrow is shown. */
  const Cutoff := 7

  /** Morning, noon and afternoon. */
  const TargetHours: set<int> := {7, 12, 15}

  /** The day whose points are wanted: tomorrow once past the cutoff, today otherwise. */
  function TargetDay(now: LocalTime): int
  {
    if now.hour > Cutoff then now.date + 1 else now.date
  }

  /** The deletion predicate exactly as the source writes it: a point on another
      day is dropped, and so is one whose hour is none of 7, 12 and 15. */
  predicate Discarded(p: ForecastPoint, now: LocalTime)
  {
    if p.time.date != TargetDay(now) then true
    else p.time.hour != 7 && p.time.hour != 12 && p.time.hour != 15
  }

  /** The selection rule as the design states it, independently of the predicate above. */
  predicate Wanted(p: ForecastPoint, now: LocalTime)
  {
    p.time.date == TargetDay(now) && p.time.hour in TargetHours
  }

  lemma DiscardedIsNotWanted(p: ForecastPoint, now: LocalTime)
    ensures Discarded(p, now) <==> !Wanted(p, now)
  {
  }

  /** The retained points, in their input order (the value the in-place deletion
      leaves in the prefix of the array). */
  function Select(s: seq<ForecastPoint>, now: LocalTime): (r: seq<ForecastPoint>)
    ensures |r| <= |s|
    ensures forall p :: p in r ==> p in s && Wanted(p, now)
  {
    if s == [] then []
    else
      var init := Select(s[..|s| - 1], now);
      if Discarded(s[|s| - 1], now) then init else init + [s[|s| - 1]]
  }

  /** The input positions of the retained points. */
  function KeptIndices(s: seq<ForecastPoint>, now: LocalTime): seq<nat>
  {
    if s == [] then []
    else
      var init := KeptIndices(s[..|s| - 1], now);
      if Discarded(s[|s| - 1], now) then init else init + [|s| - 1]
  }

  /** Selection is an order-preserving filter: the k-th retained point is the input
      point at the k-th kept position, the kept positions strictly increase, and a
      position is kept exactly when its point is on the target day at a target hour. */
  lemma {:induction false} SelectIsOrderedFilter(s: seq<ForecastPoint>, now: LocalTime)
    ensures |KeptIndices(s, now)| == |Select(s, now)|
    ensures forall k :: 0 <= k < |KeptIndices(s, now)| ==>
      KeptIndices(s, now)[k] < |s| && Select(s, now)[k] == s[KeptIndices(s, now)[k]]
    ensures forall k, l :: 0 <= k < l < |KeptIndices(s, now)| ==>
      KeptIndices(s, now)[k] < KeptIndices(s, now)[l]
    ensures forall i :: 0 <= i < |s| ==> (i in KeptIndices(s, now) <==> Wanted(s[i], now))
  {
    if s != [] {
      var init := s[..|s| - 1];
      SelectIsOrderedFilter(init, now);
      DiscardedIsNotWanted(s[|s| - 1], now);
      forall i | 0 <= i < |init|
        ensures s[i] == init[i]
      {
      }
    }
  }

  /** A point is retained exactly when it is in the input and wanted. */
  lemma SelectMembership(s: seq<ForecastPoint>, now: LocalTime, p: ForecastPoint)
    ensures p in Select(s, now) <==> p in s && Wanted(p, now)
  {
  }

  /** Selection distributes over concatenation, so filtering two halves of the
      timeseries and joining the results is filtering the whole. */
  lemma {:induction false} SelectAppend(s: seq<ForecastPoint>, t: seq<ForecastPoint>, now: LocalTime)
    ensures Select(s + t, now) == Select(s, now) + Select(t, now)
  {
    if t != [] {
      var t' := t[..|t| - 1];
      assert (s + t)[..|s + t| - 1] == s + t';
      SelectAppend(s, t', now);
    } else {
      assert s + t == s;
    }
  }

  /** Past the cutoff, a point dated today is dropped even at a target hour. */
  lemma TodayDroppedAfterCutoff(p: ForecastPoint, now: LocalTime)
    requires now.hour > Cutoff && p.time.date == now.date
    ensures p !in Select([p], now)
  {
  }

  /** A day's forecast at local hours 3, 7, 9, 12, 14, 15 and 20 on the target day
      yields exactly the 7, 12 and 15 o'clock points, in that order. */
  lemma SelectsMorningNoonAfternoon(s: seq<ForecastPoint>, now: LocalTime)
    requires |s| == 7
    requires forall k :: 0 <= k < 7 ==> s[k].time.date == TargetDay(now)
    requires s[0].time.hour == 3 && s[1].time.hour == 7 && s[2].time.hour == 9
    requires s[3].time.hour == 12 && s[4].time.hour == 14 && s[5].time.hour == 15
    requires s[6].time.hour == 20
    ensures Select(s, now) == [s[1], s[3], s[5]]
  {
    assert s == s[..4] + s[4..];
    SelectAppend(s[..4], s[4..], now);
    assert s[..4] == s[..2] + s[2..4];
    SelectAppend(s[..2], s[2..4], now);
    assert s[..2] == [s[0]] + [s[1]];
    SelectAppend([s[0]], [s[1]], now);
    assert s[2..4] == [s[2]] + [s[3]];
    SelectAppend([s[2]], [s[3]], now);
    assert s[4..] == [s[4]] + s[5..];
    SelectAppend([s[4]], s[5..], now);
    assert s[5..] == [s[5]] + [s[6]];
    SelectAppend([s[5]], [s[6]], now);
    forall p | true
      ensures Select([p], now) == if Discarded(p, now) then [] else [p]
    {
      assert [p][..0] == [];
    }
  }

  /** slices.DeleteFunc with the deletion predicate above: the retained points are
      moved to the front of the array, in order, and the slots behind them are set
      to the zero value; n is the length of the resulting slice. */
  method DeleteUnwanted(a: array<ForecastPoint>, now: LocalTime) returns (n: nat)
    modifies a
    ensures n <= a.Length
    ensures a[..n] == Select(old(a[..]), now)
    ensures forall k :: n <= k < a.Length ==> a[k] == ZeroPoint
  {
    ghost var s := a[..];
    n := 0;
    var i := 0;
    while i < a.Length
      invariant 0 <= n <= i <= a.Length
      invariant a[..n] == Select(s[..i], now)
      invariant forall j :: i <= j < a.Length ==> a[j] == s[j]
    {
      var p := a[i];
      ghost var kept := a[..n];
      assert s[..i + 1][..i] == s[..i];
      assert s[..i + 1][i] == p;
      if !Discarded(p, now) {
        a[n] := p;
        assert a[..n + 1] == kept + [p];
        n := n + 1;
      } else {
        assert a[..n] == kept;
      }
      i := i + 1;
    }
    assert s[..a.Length] == s;
    var k := n;
    while k < a.Length
      invariant n <= k <= a.Length
      invariant a[..n] == Select(s, now)
      invariant forall j :: n <= j < k ==> a[j] == ZeroPoint
    {
      a[k] := ZeroPoint;
      k := k + 1;
    }
  }
}
