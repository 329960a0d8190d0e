/** The geometry of one chart frame: the visible time window, the horizontal
    and vertical grid lines and one line command per series, as the list of
    commands handed to the line renderer. */
module Grid {
  import opened Colors
  import opened TimeSeries

  /** A viewport in pixels. */
  datatype Rect = Rect(x: real, y: real, w: real, h: real)

  /** The data rectangle `[x0, y0, x1, y1]` mapped onto a viewport. */
  datatype Range = Range(x0: real, y0: real, x1: real, y1: real)

  /** The points of a line: a grid line's two endpoints, or a series' samples. */
  datatype Points = Segment(x1: real, y1: real, x2: real, y2: real) | Polyline(samples: seq<Sample>)

  /** One open polyline for the renderer. */
  datatype LineCmd = LineCmd(thickness: int, color: Color, points: Points, viewport: Rect, range: Range)

  /** Chart options after merging with the defaults and converting colours. */
  datatype ChartOptions = ChartOptions(
    min: real, max: real,
    scale: real,      // milliseconds per pixel
    offset: int,      // milliseconds added to the frame timestamp
    stack: bool,
    background: Color, foreground: Color,
    thickness: int,   // grid line thickness
    sections: int,    // horizontal bands of the grid
    tick: nat)        // milliseconds between vertical grid lines

  /** The defaults; `stack` is absent from them, hence false. */
  const DefaultChartOptions := ChartOptions(-1.0, 1.0, 20.0, -150, false,
    Css("#E8E8E8"), Css("#808080"), 1, 2, 1000)

  // ---- Time window ----

  /** Right edge of the window: the frame timestamp plus the offset. */
  function WindowLast(opts: ChartOptions, timestamp: int): int {
    timestamp + opts.offset
  }

  /** Left edge of the window: `width * scale` milliseconds before the right edge. */
  function WindowFirst(opts: ChartOptions, width: nat, timestamp: int): real {
    WindowLast(opts, timestamp) as real - width as real * opts.scale
  }

  /** The window ends at the shifted timestamp, spans exactly
      `width * scale` milliseconds and moves with the timestamp. */
  lemma WindowFacts(opts: ChartOptions, width: nat, timestamp: int, delta: int)
    ensures WindowLast(opts, timestamp) == timestamp + opts.offset
    ensures WindowLast(opts, timestamp) as real - WindowFirst(opts, width, timestamp)
         == width as real * opts.scale
    ensures WindowFirst(opts, width, timestamp + delta)
         == WindowFirst(opts, width, timestamp) + delta as real
    ensures opts.scale > 0.0 ==> WindowFirst(opts, width, timestamp) <= WindowLast(opts, timestamp) as real
  {
  }

  /** The window example: default options, 800 pixels, timestamp 10000. */
  lemma WindowExample()
    ensures WindowLast(DefaultChartOptions, 10000) == 9850
    ensures WindowFirst(DefaultChartOptions, 800, 10000) == -6150.0
  {
  }

  function FullCanvas(width: nat, height: nat): Rect {
    Rect(0.0, 0.0, width as real, height as real)
  }

  function FullRange(width: nat, height: nat): Range {
    Range(0.0, 0.0, width as real, height as real)
  }

  // ---- Horizontal grid ----

  /** The number of horizontal bands: `sections`, times the series count when stacked. */
  function Bands(opts: ChartOptions, seriesCount: nat): int {
    if opts.stack then opts.sections * seriesCount else opts.sections
  }

  /** `Math.round`: the nearest integer, halves rounded up. */
  function Round(x: real): (n: int)
    ensures x - 0.5 < n as real <= x + 0.5
  {
    (x + 0.5).Floor
  }

  /** An odd grid thickness gets the half-pixel offset. */
  predicate Crisp(thickness: int) {
    thickness % 2 != 0
  }

  /** The height of line `i`: `i` rounded band heights, plus 0.5 when crisp. */
  function GridY(opts: ChartOptions, height: nat, bands: int, i: int): real
    requires bands > 0
  {
    (Round(height as real / bands as real) * i) as real + (if Crisp(opts.thickness) then 0.5 else 0.0)
  }

  function HorizontalLine(opts: ChartOptions, width: nat, height: nat, y: real): LineCmd {
    LineCmd(opts.thickness, opts.foreground, Segment(0.0, y, width as real, y),
            FullCanvas(width, height), FullRange(width, height))
  }

  /** Lines 1 .. bands - 1 of the horizontal grid. */
  function HorizontalGrid(opts: ChartOptions, width: nat, height: nat, seriesCount: nat): seq<LineCmd> {
    var bands := Bands(opts, seriesCount);
    if bands <= 1 then
      []
    else
      seq(bands - 1, j requires 0 <= j < bands - 1 =>
            HorizontalLine(opts, width, height, GridY(opts, height, bands, j + 1)))
  }

  /** The horizontal grid has `sections - 1` lines, or `sections * n - 1` when
      stacked (none if that is not positive); each spans the full width at
      the next multiple of the rounded band height, shifted half a pixel for
      an odd thickness, in the grid colour over the full canvas. */
  lemma HorizontalGridShape(opts: ChartOptions, width: nat, height: nat, n: nat)
    ensures var bands := if opts.stack then opts.sections * n else opts.sections;
      |HorizontalGrid(opts, width, height, n)| == (if bands >= 1 then bands - 1 else 0)
    ensures var g := HorizontalGrid(opts, width, height, n);
      var bands := Bands(opts, n);
      forall j :: 0 <= j < |g| ==>
        bands > 1
        && g[j].points == Segment(0.0, GridY(opts, height, bands, j + 1), width as real,
                                  GridY(opts, height, bands, j + 1))
        && GridY(opts, height, bands, j + 1)
           == (Round(height as real / bands as real) * (j + 1)) as real
              + (if opts.thickness % 2 != 0 then 0.5 else 0.0)
        && g[j].thickness == opts.thickness && g[j].color == opts.foreground
        && g[j].viewport == FullCanvas(width, height) && g[j].range == FullRange(width, height)
  {
  }

  /** Neighbouring horizontal lines are one rounded band height apart, which
      is within half a pixel of the exact band height. */
  lemma HorizontalGridSpacing(opts: ChartOptions, width: nat, height: nat, n: nat, j: nat)
    requires j + 1 < |HorizontalGrid(opts, width, height, n)|
    ensures var g := HorizontalGrid(opts, width, height, n);
      var bands := Bands(opts, n);
      bands > 1
      && g[j + 1].points.y1 - g[j].points.y1 == Round(height as real / bands as real) as real
      && height as real / bands as real - 0.5 < g[j + 1].points.y1 - g[j].points.y1
      && g[j + 1].points.y1 - g[j].points.y1 <= height as real / bands as real + 0.5
  {
    var bands := Bands(opts, n);
    var q := Round(height as real / bands as real);
    assert q * (j + 2) == q * (j + 1) + q;
  }

  // ---- Vertical grid ----

  /** JavaScript's `%` on integers: the remainder takes the sign of the dividend. */
  function JsRem(a: int, b: int): (r: int)
    requires b > 0
    ensures a >= 0 ==> r == a % b
    ensures a < 0 ==> r == -((-a) % b) && -b < r <= 0
  {
    if a >= 0 then a % b else -((-a) % b)
  }

  /** `JsRem` is JavaScript's remainder as the language defines it: `a` less
      the remainder is a multiple of `b`, and the remainder is smaller than
      `b` in size and takes the sign of the dividend (or is zero). */
  lemma JsRemDefinition(a: int, b: int)
    requires b > 0
    ensures (a - JsRem(a, b)) % b == 0
    ensures a >= 0 ==> 0 <= JsRem(a, b) < b
    ensures a < 0 ==> -b < JsRem(a, b) <= 0
  {
    if a >= 0 {
      assert a - JsRem(a, b) == (a / b) * b;
      ModOfMultiple(a / b, b);
    } else {
      var n := -a;
      assert n == (n / b) * b + n % b;
      assert a - JsRem(a, b) == (-(n / b)) * b;
      ModOfMultiple(-(n / b), b);
    }
  }

  /** The vertical lines' starting time: the timestamp less its JS remainder. */
  function FirstTick(t: int, tick: int): int
    requires tick > 0
  {
    t - JsRem(t, tick)
  }

  /** For a non-negative timestamp the first tick is the largest multiple of
      `tick` that is not after it. */
  lemma FirstTickLargestMultiple(t: int, tick: int)
    requires t >= 0 && tick > 0
    ensures FirstTick(t, tick) % tick == 0
    ensures FirstTick(t, tick) <= t < FirstTick(t, tick) + tick
  {
    assert FirstTick(t, tick) == (t / tick) * tick;
    ModOfMultiple(t / tick, tick);
  }

  /** `for (i = start; i >= f; i -= tick)`: the times visited by the loop. */
  function Ticks(start: int, f: real, tick: int): seq<int>
    requires tick > 0
    decreases start - f.Floor
  {
    if start as real >= f then [start] + Ticks(start - tick, f, tick) else []
  }

  /** The loop visits `start - k * tick` for every `k` that keeps it at or
      after `f`, and nothing else, in that order. */
  lemma {:induction false} TicksAt(start: int, f: real, tick: int, k: nat)
    requires tick > 0
    ensures k < |Ticks(start, f, tick)| <==> (start - k * tick) as real >= f
    ensures k < |Ticks(start, f, tick)| ==> Ticks(start, f, tick)[k] == start - k * tick
    decreases k
  {
    if k > 0 {
      if start as real >= f {
        TicksAt(start - tick, f, tick, k - 1);
        assert start - tick - (k - 1) * tick == start - k * tick;
      } else {
        assert k * tick >= 0;
      }
    }
  }

  /** The x of the line at time `i`: `width - (t - i) / scale`. */
  function TickX(width: nat, t: int, i: int, scale: real): real
    requires scale > 0.0
  {
    width as real - (t - i) as real / scale
  }

  function VerticalLine(opts: ChartOptions, width: nat, height: nat, x: real): LineCmd {
    LineCmd(opts.thickness, opts.foreground, Segment(x, 0.0, x, height as real),
            FullCanvas(width, height), FullRange(width, height))
  }

  /** The times of the vertical grid for the adjusted timestamp `t`; with
      `tick == 0` JavaScript's `t % 0` is NaN and the loop does not run. */
  function VerticalTicks(opts: ChartOptions, width: nat, t: int): seq<int> {
    if opts.tick == 0 then []
    else Ticks(FirstTick(t, opts.tick), t as real - width as real * opts.scale, opts.tick)
  }

  lemma VerticalTicksUnfold(opts: ChartOptions, width: nat, t: int)
    requires opts.tick > 0
    ensures VerticalTicks(opts, width, t)
         == Ticks(FirstTick(t, opts.tick), t as real - width as real * opts.scale, opts.tick)
  {
    if opts.tick == 0 {} else {}
  }

  function VerticalGrid(opts: ChartOptions, width: nat, height: nat, t: int): seq<LineCmd>
    requires opts.scale > 0.0
  {
    var ticks := VerticalTicks(opts, width, t);
    seq(|ticks|, k requires 0 <= k < |ticks| =>
      VerticalLine(opts, width, height, TickX(width, t, ticks[k], opts.scale)))
  }

  /** For a non-negative adjusted timestamp the vertical grid sits exactly at
      the multiples of `tick` between the window's left edge and the
      timestamp: anchored in absolute time, so lines scroll with the data. */
  lemma VerticalTicksExact(opts: ChartOptions, width: nat, t: int, m: int)
    requires t >= 0 && opts.tick > 0
    ensures m in VerticalTicks(opts, width, t)
        <==> (m % opts.tick == 0 && t as real - width as real * opts.scale <= m as real && m <= t)
  {
    VerticalTicksUnfold(opts, width, t);
    var f := t as real - width as real * opts.scale;
    if m in VerticalTicks(opts, width, t) {
      TicksSound(t, f, opts.tick, m);
    }
    if m % opts.tick == 0 && f <= m as real && m <= t {
      TicksComplete(t, f, opts.tick, m);
    }
  }

  /** Every time the loop visits is a multiple of `tick` in `[f, t]`. */
  lemma TicksSound(t: int, f: real, tick: int, m: int)
    requires t >= 0 && tick > 0 && m in Ticks(FirstTick(t, tick), f, tick)
    ensures m % tick == 0 && f <= m as real && m <= t
  {
    var l := FirstTick(t, tick);
    var ticks := Ticks(l, f, tick);
    FirstTickLargestMultiple(t, tick);
    var k :| 0 <= k < |ticks| && ticks[k] == m;
    TicksAt(l, f, tick, k);
    MultipleShift(l, k, tick);
    MulMonotone(0, k, tick);
  }

  /** Every multiple of `tick` in `[f, t]` is visited by the loop. */
  lemma TicksComplete(t: int, f: real, tick: int, m: int)
    requires t >= 0 && tick > 0 && m % tick == 0 && f <= m as real && m <= t
    ensures m in Ticks(FirstTick(t, tick), f, tick)
  {
    var l := FirstTick(t, tick);
    var p, q := t / tick, m / tick;
    assert l == p * tick && m == q * tick;
    DivMonotone(m, t, tick);
    var k: nat := p - q;
    assert l - k * tick == m by { assert (p - q) * tick == p * tick - q * tick; }
    TicksAt(l, f, tick, k);
    assert Ticks(l, f, tick)[k] == m;
  }

  lemma MultipleShift(l: int, k: nat, tick: int)
    requires tick > 0 && l % tick == 0
    ensures (l - k * tick) % tick == 0
  {
    var p := l / tick;
    assert l - k * tick == (p - k) * tick;
    ModOfMultiple(p - k, tick);
  }

  lemma ModOfMultiple(q: int, b: int)
    requires b > 0
    ensures (q * b) % b == 0
  {
    var m := q * b;
    var x := q - m / b;
    assert m % b == x * b;
    if x >= 1 {
      MulMonotone(1, x, b);
    } else if x <= -1 {
      MulMonotone(x, -1, b);
    }
  }

  lemma DivMonotone(a: int, b: int, d: int)
    requires a <= b && d > 0
    ensures a / d <= b / d
  {
    var qa, qb := a / d, b / d;
    assert (qa - qb - 1) * d == qa * d - qb * d - d;
    NegativeFactor(qa - qb - 1, d);
  }

  lemma NegativeFactor(x: int, d: int)
    requires d > 0 && x * d < 0
    ensures x < 0
  {
  }

  lemma MulMonotone(a: int, b: int, c: int)
    requires a <= b && c >= 0
    ensures a * c <= b * c
  {
  }

  /** The vertical grid runs in descending time, one `tick` apart, starting
      at the first tick. */
  lemma VerticalTicksDescending(opts: ChartOptions, width: nat, t: int, k: nat)
    requires opts.tick > 0 && k + 1 < |VerticalTicks(opts, width, t)|
    ensures VerticalTicks(opts, width, t)[0] == FirstTick(t, opts.tick)
    ensures VerticalTicks(opts, width, t)[k + 1] == VerticalTicks(opts, width, t)[k] - opts.tick
  {
    var l := FirstTick(t, opts.tick);
    var f := t as real - width as real * opts.scale;
    VerticalTicksUnfold(opts, width, t);
    TicksAt(l, f, opts.tick, 0);
    TicksAt(l, f, opts.tick, k);
    TicksAt(l, f, opts.tick, k + 1);
    assert l - (k + 1) * opts.tick == l - k * opts.tick - opts.tick;
  }

  /** For a non-negative adjusted timestamp every vertical line lies on the
      canvas, `0 <= x <= width`, spanning its full height. */
  lemma VerticalGridOnCanvas(opts: ChartOptions, width: nat, height: nat, t: int, k: nat)
    requires t >= 0 && opts.scale > 0.0 && k < |VerticalGrid(opts, width, height, t)|
    ensures var c := VerticalGrid(opts, width, height, t)[k];
      c.points.Segment? && 0.0 <= c.points.x1 == c.points.x2 <= width as real
      && c.points.y1 == 0.0 && c.points.y2 == height as real
      && k < |VerticalTicks(opts, width, t)|
      && c.points.x1 == TickX(width, t, VerticalTicks(opts, width, t)[k], opts.scale)
  {
    var ticks := VerticalTicks(opts, width, t);
    var m := ticks[k];
    assert m in ticks;
    VerticalTicksExact(opts, width, t, m);
    var d := (t - m) as real;
    assert 0.0 <= d <= width as real * opts.scale;
    DivBound(d, width as real, opts.scale);
  }

  lemma DivBound(d: real, w: real, s: real)
    requires s > 0.0 && 0.0 <= d <= w * s
    ensures 0.0 <= d / s <= w
  {
    assert d / s * s == d;
  }

  /** For a negative adjusted timestamp that is not a multiple of `tick`,
      JavaScript's truncating `%` starts the loop after the timestamp, so the
      first vertical line falls right of the canvas. */
  lemma VerticalGridNegativeTimestamp(opts: ChartOptions, width: nat, height: nat, t: int)
    requires t < 0 && opts.scale > 0.0 && opts.tick > 0 && t % opts.tick != 0
    ensures |VerticalGrid(opts, width, height, t)| > 0
    ensures VerticalGrid(opts, width, height, t)[0].points.x1 > width as real
  {
    var tick := opts.tick;
    var l := FirstTick(t, tick);
    var f := t as real - width as real * opts.scale;
    ModNegate(-t, tick);
    assert l > t;
    assert width as real * opts.scale >= 0.0;
    VerticalTicksUnfold(opts, width, t);
    TicksAt(l, f, tick, 0);
    assert VerticalTicks(opts, width, t)[0] == l;
    NegativeQuotient((t - l) as real, opts.scale);
  }

  /** A number divides evenly exactly when its negation does. */
  lemma ModNegate(a: int, b: int)
    requires b > 0
    ensures a % b == 0 <==> (-a) % b == 0
  {
    if a % b == 0 {
      assert -a == (-(a / b)) * b;
      ModOfMultiple(-(a / b), b);
    }
    if (-a) % b == 0 {
      assert a == (-((-a) / b)) * b;
      ModOfMultiple(-((-a) / b), b);
    }
  }

  lemma NegativeQuotient(d: real, s: real)
    requires d < 0.0 && s > 0.0
    ensures d / s < 0.0
  {
  }

  // ---- Series lines ----

  /** Series `k` (0-based) of `n`: the full canvas, or when stacked the
      `(k + 1)`-th band counted from `y = height` downwards. */
  function SeriesViewport(opts: ChartOptions, width: nat, height: nat, n: nat, k: nat): Rect
    requires k < n
  {
    if opts.stack then Band(width, height, height as real / n as real, k)
    else FullCanvas(width, height)
  }

  /** Band `k` of height `h`, counted upwards from the bottom of the canvas. */
  function Band(width: nat, height: nat, h: real, k: nat): Rect {
    Rect(0.0, height as real - h * (k + 1) as real, width as real, h)
  }

  /** Stacked bands have equal heights, adjoin one another and together cover
      the canvas: the first ends at `height`, the last starts at 0. */
  lemma StackedBandsTile(opts: ChartOptions, width: nat, height: nat, n: nat, k: nat)
    requires opts.stack && k < n
    ensures SeriesViewport(opts, width, height, n, k).h * n as real == height as real
    ensures SeriesViewport(opts, width, height, n, k).w == width as real
    ensures k == 0 ==> SeriesViewport(opts, width, height, n, k).y
                       + SeriesViewport(opts, width, height, n, k).h == height as real
    ensures k == n - 1 ==> SeriesViewport(opts, width, height, n, k).y == 0.0
    ensures k + 1 < n ==> SeriesViewport(opts, width, height, n, k + 1).y
                          + SeriesViewport(opts, width, height, n, k + 1).h
                          == SeriesViewport(opts, width, height, n, k).y
  {
    var h := height as real / n as real;
    assert h * n as real == height as real;
    assert h * (k + 2) as real == h * (k + 1) as real + h;
    if k == n - 1 {
      assert h * (k + 1) as real == h * n as real;
    }
  }

  /** The command of series `k`: its samples, colour and thickness, its
      viewport, and the range `[first, min, last, max]`. */
  function SeriesLine(opts: ChartOptions, width: nat, height: nat, n: nat, k: nat,
                      first: real, last: int, so: SeriesOptions, data: seq<Sample>): LineCmd
    requires k < n
  {
    LineCmd(so.thickness, so.color, Polyline(data), SeriesViewport(opts, width, height, n, k),
            Range(first, so.min, last as real, so.max))
  }

  function SeriesLines(opts: ChartOptions, width: nat, height: nat, first: real, last: int,
                       sopts: seq<SeriesOptions>, retained: seq<seq<Sample>>): seq<LineCmd>
    requires |sopts| == |retained|
  {
    seq(|sopts|, k requires 0 <= k < |sopts| =>
      SeriesLine(opts, width, height, |sopts|, k, first, last, sopts[k], retained[k]))
  }

  /** Everything `render(timestamp)` hands to the line renderer, given the
      options and the data each series retains after eviction. */
  function ChartFrame(opts: ChartOptions, width: nat, height: nat, timestamp: int,
                      sopts: seq<SeriesOptions>, retained: seq<seq<Sample>>): seq<LineCmd>
    requires opts.scale > 0.0 && |sopts| == |retained|
  {
    var last := WindowLast(opts, timestamp);
    HorizontalGrid(opts, width, height, |sopts|)
      + VerticalGrid(opts, width, height, last)
      + SeriesLines(opts, width, height, WindowFirst(opts, width, timestamp), last, sopts, retained)
  }

  /** A frame is the horizontal grid, then the vertical grid, then one command
      per series in insertion order: series `k` draws its retained samples into
      its viewport over the range `[last - width * scale, min, timestamp + offset, max]`. */
  lemma ChartFrameSeries(opts: ChartOptions, width: nat, height: nat, timestamp: int,
                         sopts: seq<SeriesOptions>, retained: seq<seq<Sample>>, k: nat)
    requires opts.scale > 0.0 && |sopts| == |retained| && k < |sopts|
    ensures var frame := ChartFrame(opts, width, height, timestamp, sopts, retained);
      var grid := |HorizontalGrid(opts, width, height, |sopts|)|
                  + |VerticalGrid(opts, width, height, timestamp + opts.offset)|;
      |frame| == grid + |sopts|
      && frame[grid + k].points == Polyline(retained[k])
      && frame[grid + k].color == sopts[k].color
      && frame[grid + k].thickness == sopts[k].thickness
      && frame[grid + k].range
         == Range((timestamp + opts.offset) as real - width as real * opts.scale, sopts[k].min,
                  (timestamp + opts.offset) as real, sopts[k].max)
      && frame[grid + k].viewport
         == (if opts.stack
             then Rect(0.0, height as real - (height as real / |sopts| as real) * (k + 1) as real,
                       width as real, height as real / |sopts| as real)
             else Rect(0.0, 0.0, width as real, height as real))
  {
    var last := WindowLast(opts, timestamp);
    var h := HorizontalGrid(opts, width, height, |sopts|);
    var v := VerticalGrid(opts, width, height, last);
    var sl := SeriesLines(opts, width, height, WindowFirst(opts, width, timestamp), last, sopts, retained);
    var frame := ChartFrame(opts, width, height, timestamp, sopts, retained);
    assert frame == h + v + sl;
    assert frame[|h| + |v| + k] == sl[k];
    SeriesLinesAt(opts, width, height, WindowFirst(opts, width, timestamp), last, sopts, retained, k);
  }

  /** The fields of series `k`'s command. */
  lemma SeriesLinesAt(opts: ChartOptions, width: nat, height: nat, first: real, last: int,
                      sopts: seq<SeriesOptions>, retained: seq<seq<Sample>>, k: nat)
    requires |sopts| == |retained| && k < |sopts|
    ensures var line := SeriesLines(opts, width, height, first, last, sopts, retained)[k];
      line.points == Polyline(retained[k]) && line.color == sopts[k].color
      && line.thickness == sopts[k].thickness
      && line.range == Range(first, sopts[k].min, last as real, sopts[k].max)
      && line.viewport
         == (if opts.stack
             then Rect(0.0, height as real - (height as real / |sopts| as real) * (k + 1) as real,
                       width as real, height as real / |sopts| as real)
             else Rect(0.0, 0.0, width as real, height as real))
  {
    var line := SeriesLines(opts, width, height, first, last, sopts, retained)[k];
    assert line == SeriesLine(opts, width, height, |sopts|, k, first, last, sopts[k], retained[k]);
  }
}
