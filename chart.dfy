/** A chart: the series it owns, its fixed options, and the per-frame render
    that evicts old samples and builds the line commands of one frame. */
module Charts {
  import opened Colors
  import opened TimeSeries
  import opened Grid

  /** The canvas as the chart sees it: its client size in pixels, set by the
      page layout. */
  class Canvas {
    var clientWidth: nat
    var clientHeight: nat

    constructor (clientWidth: nat, clientHeight: nat)
      ensures this.clientWidth == clientWidth && this.clientHeight == clientHeight
    {
      this.clientWidth := clientWidth;
      this.clientHeight := clientHeight;
    }
  }

  /** The options of each series, in list order. */
  function OptionsOf(series: seq<Series>): (r: seq<SeriesOptions>)
    ensures |r| == |series| && forall k :: 0 <= k < |series| ==> r[k] == series[k].options
  {
    seq(|series|, k requires 0 <= k < |series| => series[k].options)
  }

  /** The samples each series holds, in list order. */
  function RetainedOf(series: seq<Series>): (r: seq<seq<Sample>>)
    reads series
    ensures |r| == |series| && forall k :: 0 <= k < |series| ==> r[k] == series[k].data
  {
    seq(|series|, k requires 0 <= k < |series| reads series => series[k].data)
  }

  /** Each sample list evicted at the same edge. */
  function EvictedEach(retained: seq<seq<Sample>>, threshold: real): (r: seq<seq<Sample>>)
    ensures |r| == |retained| && forall k :: 0 <= k < |retained| ==> r[k] == Evicted(retained[k], threshold)
  {
    seq(|retained|, k requires 0 <= k < |retained| => Evicted(retained[k], threshold))
  }

  /** Where the series loop stands after `k` turns: the series already drawn
      hold their evicted data, and the others evict to it (a series listed
      twice was evicted at its first position). */
  ghost predicate EvictedUpTo(series: seq<Series>, pre: seq<seq<Sample>>, k: nat, first: real)
    reads series
  {
    |pre| == |series| && k <= |series|
    && (forall j :: 0 <= j < k ==> series[j].data == Evicted(pre[j], first))
    && (forall j :: k <= j < |series| ==> Evicted(series[j].data, first) == Evicted(pre[j], first))
  }

  /** `lines` are the first `k` commands of `want`. */
  ghost predicate Prefix(lines: seq<LineCmd>, want: seq<LineCmd>, k: nat) {
    k <= |want| && lines == want[..k]
  }

  lemma PrefixStep(lines: seq<LineCmd>, want: seq<LineCmd>, k: nat, line: LineCmd)
    requires Prefix(lines, want, k) && k < |want| && line == want[k]
    ensures Prefix(lines + [line], want, k + 1)
  {
    assert want[..k + 1] == want[..k] + [want[k]];
  }

  /** One step of the series loop: after series `k` is evicted (with every
      other series left as it was in `mid`), the loop's two facts about the
      data hold one position further on. */
  lemma EvictStep(series: seq<Series>, pre: seq<seq<Sample>>, mid: seq<seq<Sample>>, k: nat, first: real)
    requires |pre| == |mid| == |series| && k < |series|
    requires forall j :: 0 <= j < k ==> mid[j] == Evicted(pre[j], first)
    requires forall j :: k <= j < |series| ==> Evicted(mid[j], first) == Evicted(pre[j], first)
    requires forall j :: 0 <= j < |series| ==>
      series[j].data == if series[j] == series[k] then Evicted(mid[j], first) else mid[j]
    ensures EvictedUpTo(series, pre, k + 1, first)
  {
    forall j | 0 <= j < k + 1 ensures series[j].data == Evicted(pre[j], first) {
      if j < k && series[j] == series[k] {
        EvictedIdempotent(pre[j], first);
      }
    }
    forall j | k + 1 <= j < |series| ensures Evicted(series[j].data, first) == Evicted(pre[j], first) {
      if series[j] == series[k] {
        EvictedIdempotent(mid[j], first);
      }
    }
  }

  class Chart {
    const canvas: Canvas
    const options: ChartOptions
    var series: seq<Series>

    /** The options are kept as given, except that both colours go through
        `HexToVec4`. */
    constructor (canvas: Canvas, options: ChartOptions)
      ensures this.canvas == canvas && series == []
      ensures this.options == options.(background := HexToVec4(options.background),
                                       foreground := HexToVec4(options.foreground))
    {
      this.canvas := canvas;
      this.options := options.(background := HexToVec4(options.background),
                               foreground := HexToVec4(options.foreground));
      series := [];
    }

    /** `addSeries`: appended last, so drawn last and stacked highest; no
        duplicate check. */
    method AddSeries(s: Series)
      modifies this
      ensures series == old(series) + [s]
    {
      series := series + [s];
    }

    /** `render(timestamp)`: every series is evicted at the window's left edge
        `first`, and the returned list is the horizontal grid, the vertical
        grid and one command per series, as `ChartFrame` describes. A series
        added twice is evicted twice, which leaves it as evicting once would. */
    method Render(timestamp: int) returns (lines: seq<LineCmd>)
      requires options.scale > 0.0
      modifies series
      ensures forall s :: s in series ==>
        s.data == Evicted(old(s.data), WindowFirst(options, canvas.clientWidth, timestamp))
      ensures lines == ChartFrame(options, canvas.clientWidth, canvas.clientHeight, timestamp,
                                  OptionsOf(series), RetainedOf(series))
    {
      var width := canvas.clientWidth;
      var height := canvas.clientHeight;
      // The window ends at the shifted timestamp and spans width * scale
      var t := timestamp + options.offset;
      var last := t;
      var first := last as real - width as real * options.scale;
      // Horizontal lines, then vertical lines, then one line per series
      lines := HorizontalLines(options, width, height, |series|);
      var vertical := VerticalLines(options, width, height, t);
      lines := lines + vertical;

      var drawn := SeriesLinesOf(width, height, first, last);
      lines := lines + drawn;
      assert WindowFirst(options, width, timestamp) == first;
      assert |OptionsOf(series)| == |series|;
      assert lines == HorizontalGrid(options, width, height, |OptionsOf(series)|) + VerticalGrid(options, width, height, last) + SeriesLines(options, width, height, first, last, OptionsOf(series), RetainedOf(series));
    }

    /** The series loop of `render`: for each series in order, evict it at
        `first` and add its line, drawn into its viewport (its band when
        stacked) over the range `[first, min, last, max]`. */
    method SeriesLinesOf(width: nat, height: nat, first: real, last: int) returns (lines: seq<LineCmd>)
      modifies series
      ensures forall s :: s in series ==> s.data == Evicted(old(s.data), first)
      ensures lines == SeriesLines(options, width, height, first, last, OptionsOf(series), RetainedOf(series))
    {
      var seriesHeight := 0.0;
      if options.stack && |series| > 0 {
        seriesHeight := height as real / |series| as real;
      }
      ghost var pre := RetainedOf(series);
      ghost var want := SeriesLines(options, width, height, first, last, OptionsOf(series), EvictedEach(pre, first));
      lines := [];
      var k := 0;
      while k < |series|
        invariant k <= |series| && EvictedUpTo(series, pre, k, first) && Prefix(lines, want, k)
      {
        var line := DrawSeries(pre, want, k, width, height, seriesHeight, first, last);
        PrefixStep(lines, want, k, line);
        lines := lines + [line];
        k := k + 1;
      }
      assert forall j :: 0 <= j < |series| ==> series[j].data == Evicted(pre[j], first);
      assert RetainedOf(series) == EvictedEach(pre, first);
      assert lines == want;
    }

    /** One turn of the series loop: evict series `k` at `first` and build
        its line command. */
    method DrawSeries(ghost pre: seq<seq<Sample>>, ghost want: seq<LineCmd>, k: nat,
                      width: nat, height: nat, seriesHeight: real, first: real, last: int)
      returns (line: LineCmd)
      requires k < |series| && EvictedUpTo(series, pre, k, first)
      requires want == SeriesLines(options, width, height, first, last, OptionsOf(series), EvictedEach(pre, first))
      requires options.stack ==> seriesHeight == height as real / |series| as real
      modifies series[k]
      ensures EvictedUpTo(series, pre, k + 1, first) && k < |want| && line == want[k]
    {
      var s := series[k];
      var viewport := FullCanvas(width, height);
      if options.stack {
        viewport := Band(width, height, seriesHeight, k);
      }
      // Evict series k at the window edge
      EvictNext(pre, k, first);
      line := LineCmd(s.options.thickness, s.options.color, Polyline(s.data), viewport,
                      Range(first, s.options.min, last as real, s.options.max));
    }

    /** The loop step that evicts series `k` at `first`, with the loop's two
        facts about the data carried one position further on. */
    method EvictNext(ghost pre: seq<seq<Sample>>, k: nat, first: real)
      requires k < |series| && EvictedUpTo(series, pre, k, first)
      modifies series[k]
      ensures EvictedUpTo(series, pre, k + 1, first)
    {
      ghost var mid := RetainedOf(series);
      series[k].RemoveOlderThan(first);
      EvictStep(series, pre, mid, k, first);
    }
  }

  /** The horizontal-grid loop of `render`: lines 1 .. sections - 1 at
      multiples of the rounded band height. */
  method HorizontalLines(options: ChartOptions, width: nat, height: nat, seriesCount: nat)
    returns (lines: seq<LineCmd>)
    ensures lines == HorizontalGrid(options, width, height, seriesCount)
  {
    lines := [];
    var sections := options.sections;
    if options.stack {
      sections := sections * seriesCount;
    }
    var crisp := options.thickness % 2 != 0;
    // With no band the division is never used: the loop below does not run.
    var intervalY := if sections > 0 then Round(height as real / sections as real) else 0;
    var i := 1;
    while i < sections
      invariant 1 <= i <= (if sections >= 1 then sections else 1)
      invariant |lines| == i - 1
      invariant forall j :: 0 <= j < i - 1 ==>
        lines[j] == HorizontalLine(options, width, height, GridY(options, height, sections, j + 1))
    {
      var y := (intervalY * i) as real;
      if crisp {
        y := y + 0.5;
      }
      lines := lines + [HorizontalLine(options, width, height, y)];
      i := i + 1;
    }
    assert Bands(options, seriesCount) == sections;
  }

  /** The vertical-grid loop of `render` for the adjusted timestamp `t`:
      from `t - t % tick` down to the window's left edge, one `tick` apart. */
  method VerticalLines(options: ChartOptions, width: nat, height: nat, t: int)
    returns (lines: seq<LineCmd>)
    requires options.scale > 0.0
    ensures lines == VerticalGrid(options, width, height, t)
  {
    lines := [];
    var f := t as real - width as real * options.scale;
    if options.tick > 0 {
      var tick := options.tick;
      var l := t - JsRem(t, tick);
      VerticalTicksUnfold(options, width, t);
      ghost var ticks := Ticks(l, f, tick);
      var i := l;
      while i as real >= f
        invariant |lines| <= |ticks|
        invariant Ticks(i, f, tick) == ticks[|lines|..]
        invariant forall j :: 0 <= j < |lines| ==>
          lines[j] == VerticalLine(options, width, height, TickX(width, t, ticks[j], options.scale))
        decreases i - f.Floor
      {
        var x := width as real - (t - i) as real / options.scale;
        lines := lines + [VerticalLine(options, width, height, x)];
        i := i - tick;
      }
    } else {
      // JavaScript's `t % 0` is NaN, so the loop does not run.
    }
  }
}
