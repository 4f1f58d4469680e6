# Oblecnik core in Dafny

A verified model of the decision core of Oblecnik, a command-line tool that reads the
MET Norway location forecast for a configured place and tells the user what to wear.
The model covers the three stages between the decoded forecast and the printed advice:

- **Selector** (`selector.dfy`): drops, in place, every timeseries point that is not on
  the target day (tomorrow once the local hour is past 7, today otherwise) or not at
  local hour 7, 12 or 15, keeping the survivors in order (`slices.DeleteFunc`).
- **Aggregator** (`aggregator.dfy`): builds the weather summary from the retained
  points: the first three temperatures, the rain index of the first point's
  next-12-hours symbol code, and the wind index and peak wind speed over all points.
- **Decision engine** (`clothing.dfy`): `decideClothes`, from the summary to hoodie,
  jacket level and trouser weight.
- **Pipeline** (`pipeline.dfy`): the three stages chained as the default command runs
  them, including the index-out-of-range panic when fewer than three points survive.

`forecast.dfy` holds the value types. A forecast point carries an abstract local time
(a day number and an hour), so "tomorrow" is the day number plus one; the current
local time is a parameter. Temperatures and wind speeds are `real`.

Where the system's specification and the code differ, the model follows the code:

- The light-jacket threshold is 15 degrees, as compared at `oblecnik.go:371`; the
  comment beside it speaks of 19.
- The rain rules are an `else if` chain, so a light-rain match is never replaced by a
  heavy-rain match for the same code; the specification describes an override. The
  three code sets are in fact disjoint (they differ in their first letter), so the
  precedence never matters.
- The rain index uses the four-level scale (0 sunny, 1 cloudy, 2 light rain,
  3 heavy rain); the numeric-identifier scheme the specification also describes is not
  in this code.
- The cutoff hour is 7 as in `main`; the test file's copy of the filter uses 6.

## Model

| member | source | states |
|---|---|---|
| Selector.Select | oblecnik.go:160-175 | every retained point comes from the input and is on the target day at hour 7, 12 or 15; no more points than the input |
| Selector.DiscardedIsNotWanted | oblecnik.go:166-174 | the deletion predicate as written drops a point exactly when it is not on the target day (tomorrow if the hour is past 7, else today) at a target hour |
| Selector.SelectIsOrderedFilter | oblecnik.go:160-175 | the k-th retained point is the input point at the k-th kept position; kept positions strictly increase (input order is kept); a position is kept iff its point is wanted |
| Selector.SelectMembership | oblecnik.go:171-174 | a point is retained iff it is in the input and wanted |
| Selector.SelectAppend | oblecnik.go:160-175 | selecting from a concatenation is the concatenation of the selections |
| Selector.TodayDroppedAfterCutoff | oblecnik.go:166-172 | past 7 o'clock a point dated today is dropped even at a target hour |
| Selector.SelectsMorningNoonAfternoon | oblecnik_test.go:97-131 | points at hours 3, 7, 9, 12, 14, 15, 20 of the target day select exactly those at 7, 12 and 15, in that order |
| Selector.DeleteUnwanted | oblecnik.go:160-175 | in place: the array's prefix of the returned length is the selection of the old contents, the rest is zeroed |
| Aggregator.RainIndex | oblecnik.go:268-274 | the rain index is always in 0..3 |
| Aggregator.RainIndexMeaning | oblecnik.go:186-274 | the rain index is 2 iff the code is a light-rain code, 3 iff a heavy-rain code, 1 iff an overcast code, 0 iff none of these (the three sets are disjoint, so the order of the checks does not matter) |
| Aggregator.WindClassStep | oblecnik.go:276-282 | one loop turn over a further point moves the index from the class of the scanned prefix to the class of the longer prefix (2 iff some speed above 12, else 1 iff some above 8, else 0) |
| Aggregator.WindClassMonotone | oblecnik.go:276-282 | the wind index stays in 0..2 and never decreases as more points are scanned |
| Aggregator.PeakWind | oblecnik.go:283-285 | the peak wind speed is at least 0 and at least every point's speed, and is either 0 or one of those speeds |
| Aggregator.Summarize | oblecnik.go:179-286 | given at least three points: temps are the first three air temperatures in order, the rain index is that of point 0's next-12-hours code, the wind index is the wind class and the speed the peak over all points |
| Clothing.MinTemp | oblecnik.go:362 | the minimum is one of the temperatures and no greater than any of them (non-empty input) |
| Clothing.MaxTemp | oblecnik.go:363 | the maximum is one of the temperatures and no less than any of them (non-empty input) |
| Clothing.Decide | oblecnik.go:360-389 | total on a non-empty temperature list; jacket and trouser indices in 0..2 |
| Clothing.HoodieRule | oblecnik.go:364-368 | hoodie iff every temperature is below 21, or every one is below 26 and the rain index is 2 or 3 |
| Clothing.JacketRule | oblecnik.go:369-379 | winter jacket iff every temperature is below 10; light jacket iff some reaches 10 and either all are below 15 or all are at least 10 with heavy rain or wind index at least 1; none otherwise |
| Clothing.TrousersRule | oblecnik.go:381-387 | shorts iff some temperature is above 25; insulated iff none is above 5; regular iff some is above 5 and none above 25 |
| Clothing.Boundaries | oblecnik.go:364-387 | maximum 21 without rain gives no hoodie; maximum 25 gives regular trousers; maximum 10 gives the light jacket |
| Clothing.WindOverride | oblecnik.go:377-379 | wind index at least 1 and every temperature at least 10 force the light jacket |
| Clothing.Scenarios | oblecnik.go:360-389 | 18/22/20 sunny calm gives T-shirt, no jacket, trousers; 2/4/3 heavy rain strong wind gives hoodie, winter jacket, insulated trousers; 12/14/13 strong wind gives the light jacket |
| Pipeline.Advise | oblecnik.go:160-288 | the run panics iff fewer than three points are selected; otherwise the summary is built from the selection as above and the advice is the decision on it |

## Left out

- Fetching the forecast (request construction, the altitude sentinel -500, the HTTP call, status check) and JSON decoding: network I/O and a foreign library; the model starts from the decoded timeseries.
- Timestamp parsing and time-zone conversion (including ignored parse errors), and `time.Now()`: each point carries its local date and hour, and one snapshot of the current local time is a parameter. The source reads the clock afresh for every point, so a run that crosses a day or hour boundary mid-filter is not modelled.
- Configuration reading and writing, the `set` and `get` subcommands, usage help and the process exit: file and process I/O.
- The coloured report (labels, wind text, date heading and its parse panic): presentation only.
- Forecast fields the core never reads (pressure, humidity, cloud fraction, direction, the 1- and 6-hour summaries).
- IEEE-754 NaN and infinities: temperatures and wind speeds are reals.
- The preliminary search of `slices.DeleteFunc` for the first deleted point: the model copies survivors in one pass from the start, which leaves the same array.
- The test file's own copy of the filter (cutoff 6) and its live API calls.
