# sensorchart in Dafny

A model of the core of *sensorchart*, a small JavaScript library that draws
streaming sensor data as scrolling line charts. The model covers four pieces
of `src/sensorchart.js`:

- **Colours** (`Colors`): `Helpers.hexToVec4` turns a `#RRGGBB` or `RRGGBB`
  string (either case) into the vector `[r/255, g/255, b/255, 1]` and passes
  every other colour through unchanged.
- **Series retention** (`TimeSeries`): a `Series` holds an append-only list of
  `(time, value)` samples. `removeOlderThan(th)` scans forward to the first
  sample at or after `th`, steps back one sample if the scan moved, and drops
  the prefix. For samples appended in time order, this bounds memory to the
  visible window plus one sample. The
  class is proved against the pure function `Evicted`.
- **Frame geometry** (`Grid`, `Charts`): a `Chart` owns its series and a
  canvas. `render(timestamp)` computes:
  - a time window `[last - width*scale, last]`, where `last = timestamp + offset`;
  - the horizontal grid lines;
  - the vertical grid lines at multiples of `tick`;
  - one line command per series, in its viewport (the full canvas, or its
    band when stacked) over the range `[first, min, last, max]`.

  It evicts every series at the window's left edge. `Chart.Render` builds the
  command list in three loops, as the source does. It is proved equal to the
  pure function `ChartFrame`, and the grid and window properties are proved
  about `ChartFrame`.
- **Scheduler** (`Scheduling`): the frame loop with its `loop` flag and `last`
  timestamp. `frame(now)`:
  - reports `1000 / (now - last)` to an optional callback;
  - renders every chart in list order with the same `now`;
  - requests the next animation frame exactly when `loop` is set.

The clock and the browser's frame requests are inputs. `now` is a parameter,
and the frames requested but not yet run are a counter, `pendingFrames`. The
values passed to the callback are recorded in `reported`.

Numbers are modelled as follows:
- Timestamps, `offset` and `tick` are integers, so that JavaScript's truncating
  `%` can be written out (`JsRem`).
- Sample times, values and `scale` are reals.
- `Math.round` is `floor(x + 0.5)`.
- The callback's value is `Rate(1000 / gap)`, `Infinite` for a zero gap, or
  `NotANumber` before `start` has set `last`.

## Model

| member | source | states |
|---|---|---|
| `Colors.HexToVec4` | src/sensorchart.js:25-33 | A string matching an optional `#` and six hex digits (either case) becomes an RGBA colour. Its three channels are the parsed bytes over 255, each in [0, 1], and its alpha is 1. It is RGBA exactly in that case or when the input already was. Every non-matching colour is returned unchanged. |
| `Colors.FormatThenParse` | src/sensorchart.js:26-30 | Any three bytes written as a six-digit code, with or without `#`, match the pattern, and the three groups parse back to the same bytes. |
| `Colors.ParseThenFormat` | src/sensorchart.js:26-30 | The three bytes parsed from a matching code, written back out, give the code in lower case. |
| `Colors.HexRoundTrip` | src/sensorchart.js:25-33 | The colour of the code of `(r, g, b)` is exactly `[r/255, g/255, b/255, 1]`. |
| `Colors.HexCaseInsensitive` | src/sensorchart.js:26 | The `i` flag: two strings equal up to case both match or both fail, and when they match they give the same colour. |
| `Colors.HexToVec4Injective` | src/sensorchart.js:26-32 | Two matching codes give the same colour if and only if they name the same three bytes. |
| `TimeSeries.FirstAtOrAfter` | src/sensorchart.js:233-235 | The scan's stopping index: every sample before it is older than the threshold, and the sample at it (if any) is not. |
| `TimeSeries.FirstAtOrAfterUnique` | src/sensorchart.js:233-235 | The stopping index is the only index with those two properties. |
| `TimeSeries.KeepFrom` | src/sensorchart.js:236 | After the step back, the start index is in range, and it leaves at least one sample unless the data is empty. |
| `TimeSeries.Evicted` | src/sensorchart.js:232-238 | The retained data is a suffix of the old data. It is not empty unless the old data was. It is the old data unchanged when that is empty or starts at or after the threshold. |
| `TimeSeries.EvictedKeepsWindow` | src/sensorchart.js:233-237 | Every sample at or after the threshold is retained, whether or not the data is sorted. |
| `TimeSeries.EvictedExactly` | src/sensorchart.js:233-237 | On sorted data, a sample is retained if and only if it is at or after the threshold or it is the last sample before the window. |
| `TimeSeries.EvictedAtMostOneOlder` | src/sensorchart.js:233-237 | On sorted data, every retained sample after the first is at or after the threshold. |
| `TimeSeries.EvictedAllOlder` | src/sensorchart.js:233-237 | When every sample is older than the threshold, exactly the last sample is kept. |
| `TimeSeries.FirstAtOrAfterMonotone` | src/sensorchart.js:233-235 | A later threshold stops the scan no earlier. |
| `TimeSeries.FirstAtOrAfterDrop` | src/sensorchart.js:233-235 | Dropping `k` samples the scan passes over moves its stopping index exactly `k` earlier. |
| `TimeSeries.EvictedCompose` | src/sensorchart.js:232-238 | Evicting at `t1` and then at a later `t2` equals evicting once at `t2`, even on unsorted data. So per-frame eviction with a moving window keeps what one eviction at the latest edge keeps. |
| `TimeSeries.EvictedIdempotent` | src/sensorchart.js:232-238 | Evicting twice at the same threshold equals evicting once. |
| `TimeSeries.EvictedSorted` | src/sensorchart.js:236-237 | Eviction keeps sorted data sorted. |
| `TimeSeries.AppendSorted` | src/sensorchart.js:222-225 | Appending a sample no older than the newest keeps the data sorted. |
| `TimeSeries.EvictionExample` | src/sensorchart.js:232-238 | Samples at 0, 100, 200 and 300 with threshold 150 keep the samples from 100 on. |
| `TimeSeries.Series.constructor` | src/sensorchart.js:205-214 | A new series has the given options and no data. |
| `TimeSeries.Series.Append` | src/sensorchart.js:222-225 | Exactly one sample `(time, value)` is added at the end. Every earlier sample is unchanged. |
| `TimeSeries.Series.RemoveOlderThan` | src/sensorchart.js:232-238 | The forward scan, the step back and the slice leave `data == Evicted(old data, threshold)`. |
| `Grid.WindowFacts` | src/sensorchart.js:105-110 | The window spans exactly `width * scale` milliseconds and ends at `timestamp + offset`. It shifts by exactly as much as the timestamp does. With a positive scale, `first <= last`. |
| `Grid.WindowExample` | src/sensorchart.js:106-110 | With the default options (scale 20, offset -150), 800 pixels and timestamp 10000, the window is `[-6150, 9850]`. |
| `Grid.Round` | src/sensorchart.js:123 | `Math.round` gives an integer within half a unit of its argument, rounding halves up. |
| `Grid.HorizontalGridShape` | src/sensorchart.js:120-137 | The horizontal grid has `sections - 1` lines, or `sections * n - 1` when stacked (none when that is below 1). Line `i` spans the full width at `round(height / bands) * i`, plus 0.5 for an odd thickness, in the grid colour and thickness, over the full canvas. |
| `Grid.HorizontalGridSpacing` | src/sensorchart.js:123-127 | Neighbouring horizontal lines are one rounded band height apart, which is within half a pixel of `height / bands`. |
| `Grid.JsRem` | src/sensorchart.js:140 | JavaScript's `%`: Dafny's remainder for a non-negative dividend; for a negative one, the negated remainder of the negation, in `(-tick, 0]`. |
| `Grid.JsRemDefinition` | src/sensorchart.js:140 | `JsRem` meets JavaScript's definition of `%`: the dividend less the remainder is a multiple of the divisor, the remainder is smaller than the divisor in size, and it is never negative for a non-negative dividend and never positive for a negative one. |
| `Grid.FirstTickLargestMultiple` | src/sensorchart.js:140 | For a non-negative timestamp, `l = t - t % tick` is the largest multiple of `tick` not after `t`. |
| `Grid.TicksAt` | src/sensorchart.js:141 | The loop `for (i = l; i >= f; i -= tick)` visits `l - k*tick` for exactly the `k` that keep it at or after `f`, in that order. |
| `Grid.TicksSound` | src/sensorchart.js:139-141 | Every time the vertical loop visits is a multiple of `tick` in `[first, t]`. |
| `Grid.TicksComplete` | src/sensorchart.js:139-141 | Every multiple of `tick` in `[first, t]` is visited. |
| `Grid.VerticalTicksExact` | src/sensorchart.js:139-141 | For a non-negative adjusted timestamp, a time is on the vertical grid if and only if it is a multiple of `tick` between the window's left edge and the timestamp. |
| `Grid.VerticalTicksDescending` | src/sensorchart.js:140-141 | The vertical grid starts at `t - t % tick` and runs down one `tick` at a time. |
| `Grid.VerticalGridOnCanvas` | src/sensorchart.js:139-150 | For a non-negative adjusted timestamp, the `k`-th vertical line has `x = width - (t - i) / scale` for the `k`-th tick `i`, lies in `[0, width]` and spans the full height. |
| `Grid.VerticalGridNegativeTimestamp` | src/sensorchart.js:140-142 | For a negative adjusted timestamp that is not a multiple of `tick`, the truncating `%` starts the loop after the timestamp, so the first vertical line is right of the canvas. |
| `Grid.StackedBandsTile` | src/sensorchart.js:153-166 | Stacked viewports have height `height / n` and the full width. They adjoin one another: the first ends at `height`, the last starts at 0. |
| `Grid.ChartFrameSeries` | src/sensorchart.js:105-181 | A frame is the horizontal grid, then the vertical grid, then one command per series in list order. Series `k`'s command draws its retained samples, in its colour and thickness, in the full canvas or its band, over `[last - width*scale, min, timestamp + offset, max]`. |
| `Grid.SeriesLinesAt` | src/sensorchart.js:159-179 | Command `k` of the series loop has series `k`'s samples, colour and thickness, its viewport and the range `[first, min, last, max]`. |
| `Charts.Chart.constructor` | src/sensorchart.js:57-80 | The chart keeps its canvas and options, with both colours passed through `HexToVec4`, and starts with no series. |
| `Charts.Chart.AddSeries` | src/sensorchart.js:87-89 | The series is appended at the end of the list. |
| `Charts.Chart.Render` | src/sensorchart.js:94-186 | Every series is evicted at `first = timestamp + offset - width*scale`. The command list is `ChartFrame` of the options, the canvas size, the timestamp, the series' options and their retained data. A series added twice is evicted twice, with the same effect as once. |
| `Charts.Chart.SeriesLinesOf` | src/sensorchart.js:153-181 | The series loop evicts each series at `first` and yields exactly `SeriesLines` of the evicted data. |
| `Charts.Chart.DrawSeries` | src/sensorchart.js:162-179 | One turn of the series loop evicts series `k` and yields the `k`-th command of `SeriesLines`. |
| `Charts.Chart.EvictNext` | src/sensorchart.js:168-169 | Series `k` is evicted, and the loop's facts about the series data hold one position further on. |
| `Charts.HorizontalLines` | src/sensorchart.js:119-137 | The horizontal-grid loop yields exactly `HorizontalGrid`. |
| `Charts.VerticalLines` | src/sensorchart.js:138-151 | The vertical-grid loop yields exactly `VerticalGrid` (no lines for `tick == 0`, where `t % 0` is NaN). |
| `Scheduling.FpsOf` | src/sensorchart.js:288 | The value is NaN exactly when `last` is undefined and `Infinity` exactly when `now == last`. Otherwise it is the rate `r` with `r * (now - last) == 1000`. |
| `Scheduling.FpsSlower` | src/sensorchart.js:288 | With the clock moving forward the rate is positive, and a longer gap gives a lower rate. |
| `Scheduling.FpsBackwards` | src/sensorchart.js:288 | A clock that goes backwards gives a negative rate. |
| `Scheduling.FpsTrace` | src/sensorchart.js:286-290 | Over successive frames, the first value is measured from the starting `last` and each later value from the previous frame's clock. |
| `Scheduling.Scheduler.constructor` | src/sensorchart.js:253-256 | A new scheduler has no charts, no loop, no `last`, no pending frame and no report. |
| `Scheduling.Scheduler.AddChart` | src/sensorchart.js:263-265 | The chart is appended at the end of the list. Nothing else changes. |
| `Scheduling.Scheduler.Start` | src/sensorchart.js:270-274 | It sets `loop`, then runs a frame at once measured from `last = 0`. After that, `last == now`, one more frame is pending, and every chart is rendered as `Rendered` states. Every series holds a suffix of its old data, non-empty if that was. When no series is drawn by two different charts (a chart added twice counts once), series `i` of chart `k` holds exactly `retained[k][i]` (`Settled`). |
| `Scheduling.Scheduler.Arm` | src/sensorchart.js:271-272 | The loop flag is set and `last` becomes 0. Nothing else changes. |
| `Scheduling.Scheduler.Stop` | src/sensorchart.js:279-281 | Only the loop flag is cleared. A frame already requested stays pending. |
| `Scheduling.Scheduler.Frame` | src/sensorchart.js:286-297 | It reports `FpsOf(old last, now)` exactly when there is a callback and sets `last = now`. It renders every chart with the same `now`. Batch `k` is chart `k`'s `ChartFrame` of data that is a front-trimmed suffix of its series' data at the start of the frame. When no series is drawn by two different charts (a chart added twice counts once), that data is exactly the series evicted at the chart's window edge, and each series is left holding exactly that data (`Settled`). Every series holds a suffix of its old data, non-empty if that was. The frame requests the next one if and only if `loop` is set. |
| `Scheduling.Scheduler.RequestFrame` | src/sensorchart.js:294-296 | One frame is added to the pending count exactly when `loop` is set. Nothing else changes. |
| `Scheduling.Scheduler.RunRequestedFrame` | src/sensorchart.js:294-296 | A requested frame runs: it leaves the pending count, and `frame` may add the next one. The charts are rendered as `Rendered` states, every series holds a suffix of its old data, and when no series is drawn by two different charts (a chart added twice counts once) every series holds exactly what its chart retained. |
| `Scheduling.Scheduler.RunPending` | src/sensorchart.js:294-296 | With `loop` cleared, a requested frame runs and requests no other: the pending count drops by one, `last` becomes the frame's clock, and the callback gets one value measured from the previous `last`. |
| `Scheduling.Scheduler.RunAfterStop` | src/sensorchart.js:279-296 | After `stop`, exactly the frames already pending run and no more. None is left pending. The callback sees exactly `FpsTrace` of their clock values. |
| `Scheduling.RenderAll` | src/sensorchart.js:291-293 | The chart loop renders each chart in list order, and batch `k` is as `Rendered` states. Every series holds a suffix of its data at the start, non-empty if that was. When no series is drawn by two different charts (a chart added twice counts once), every series ends holding exactly what its chart retained. |
| `Scheduling.RenderOne` | src/sensorchart.js:292 | One turn of the chart loop extends the rendered prefix by chart `k`. When no series is drawn by two different charts, the series of charts `0..k` hold what those charts retained, and a series of a later chart that was already drawn holds its starting data evicted at that chart's window edge (`DrawnAtEdge`). |
| `Scheduling.EvictChart` | src/sensorchart.js:292 | `chart.render(now)` evicts each of the chart's series at its window edge, leaves every other series unchanged and returns the chart's `ChartFrame`. Every series still holds a suffix of its data at the start of the frame. |
| `Scheduling.EvictedAgain` | src/sensorchart.js:232-238 | Evicting data that is untouched or already evicted at the same edge gives the same result, so a chart rendered a second time in a frame evicts nothing more. |
| `Scheduling.SameChart` | src/sensorchart.js:263-265 | When no series is drawn by two different charts, two list positions whose charts draw the same series hold the same chart. |
| `Scheduling.UnsharedRepeated` | src/sensorchart.js:263-265 | A chart added twice (`addChart` has no duplicate check) does not count as two charts sharing a series. |
| `Scheduling.RepeatedChartSameBatch` | src/sensorchart.js:291-293 | A chart added twice retains the same data and renders the same batch both times in a frame. |
| `Scheduling.DrawChart` | src/sensorchart.js:292 | `chart.render(now)` inside the loop: the chart's retained data is related to the frame's starting data as `Kept` states. The chart's series now hold exactly that data, every other series is unchanged, and the series of charts not yet drawn are still as the frame found them. |
| `Scheduling.SettledEvicted` | src/sensorchart.js:291-293 | After a frame in which no series is drawn by two different charts, series `i` of chart `k` holds exactly its data at the start of the frame evicted at chart `k`'s window edge. |
| `Scheduling.StartFrameStop` | src/sensorchart.js:270-296 | Start, one requested frame, then stop: exactly one more, already-requested frame runs. The callback sees `[1000/(t0 - 0), 1000/(t1 - t0), 1000/(t2 - t1)]`. |
| `Scheduling.RenderedExtend` | src/sensorchart.js:291-293 | Rendering chart `k` extends what the first `k` charts rendered. |

## Left out

- WebGL: the context, `createREGL`, the `regl-line2d` renderer, `regl.clear`
  and `lines.render` are foreign library calls. A frame is modelled only as
  the command list that `render` hands to the renderer, and the background
  clear is not modelled.
- Layout: resizing the canvas (src/sensorchart.js:97-102) only copies
  `clientWidth`/`clientHeight` into the drawing buffer. The client size is an
  input (`Canvas`), and the drawing-buffer size is not modelled.
- Browser APIs: `Date.now` and `window.requestAnimationFrame` become the `now`
  parameter and the `pendingFrames` counter. The callback is external; only
  the values passed to it are recorded.
- Floating point: times, values, `scale` and the callback's value are reals or
  integers, not IEEE doubles. Rounding error, overflow and NaN propagation are
  not modelled. The two NaN and Infinity cases of the callback's value are
  named constructors.
- Option merging: `Object.assign` with the defaults (src/sensorchart.js:58-69,
  206-212) is not modelled. The options are records already merged, and the
  defaults are the constants `DefaultChartOptions` and `DefaultSeriesOptions`.
  Option fields the source reads as numbers are typed. `thickness`, `sections`,
  `offset` and `tick` are integers; `tick` is non-negative; `clientWidth` and
  `clientHeight` are natural numbers.
- Charts.Chart.Render: requires a positive `scale`. The source has no such
  guard. A zero scale makes `(timestamp - i) / scale` at
  src/sensorchart.js:142 a division by zero: `x` is NaN for a line at the
  timestamp itself, or +Infinity when the timestamp is negative and not a
  multiple of `tick`. A negative scale reverses the window. Both lie
  outside the model. The scheduler's `Start`, `Frame`, `RunRequestedFrame`
  and `RunAfterStop` carry the same requirement for every chart (`Scaled`).
- Charts.VerticalLines: requires a positive `scale` for the same reason.
- Scheduling.Scheduler.Frame: when two different charts share a series, each chart's
  batch is stated only for data that is a non-empty-preserving suffix of what
  the series held when the frame began. The exact data depends on the other
  charts' window edges and is not stated.
- Scheduling.Scheduler.Frame: `frame` requests the next animation frame after
  the charts render. The model adds to `pendingFrames` before rendering. The
  browser runs a requested frame only after `frame` returns, so the two orders
  give the same states. A `render` that throws part-way is not modelled.
- Negative ticks: `tick` is a natural number. With a negative `tick`, the
  loop `i -= tick` at src/sensorchart.js:141 increases `i`, so it never ends
  whenever `l >= f`. A tick of zero is modelled: `t % 0` is NaN and no line
  is drawn.
- Scheduling.Scheduler.constructor: JavaScript leaves `loop` undefined until
  `start`. It is modelled as `false`, which is how undefined behaves in
  `if (this.loop)`. `last` is modelled as `NotYet`.
- Samples: sample values are not shaped as two-element arrays. A sample is
  the record `Sample(time, value)`, and a series command carries the samples
  themselves as its points.
- The stacked viewport: the source's running counter `i` and shared
  `viewport` variable become the series index `k` and a per-series viewport.
  The values agree: `i = k + 1` when stacked, and otherwise the full-canvas
  rectangle.
