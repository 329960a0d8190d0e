/** The frame loop: a list of charts rendered once per animation frame with
    the same clock value, an optional frames-per-second report, and a loop
    flag that decides whether the next frame is requested. The clock and the
    browser's frame requests are inputs: `now` is a parameter and the frames
    requested but not yet run are a counter. */
module Scheduling {
  import opened TimeSeries
  import opened Grid
  import opened Charts

  /** The value handed to the callback: `1000 / (now - last)` in JavaScript
      numbers, where a zero gap gives `Infinity` and an undefined `last` NaN. */
  datatype Fps = Rate(perSecond: real) | Infinite | NotANumber

  /** `last` is undefined until `start` sets it. */
  datatype LastTick = NotYet | At(ms: int)

  function FpsOf(last: LastTick, now: int): (r: Fps)
    ensures r.NotANumber? <==> last.NotYet?
    ensures r.Infinite? <==> last.At? && now == last.ms
    ensures r.Rate? ==> r.perSecond * (now - last.ms) as real == 1000.0
  {
    match last
    case NotYet => NotANumber
    case At(t) => if now == t then Infinite else Rate(1000.0 / (now - t) as real)
  }

  /** A clock that moves forward gives a positive rate, and a longer gap a
      lower one. */
  lemma FpsSlower(t: int, n1: int, n2: int)
    requires t < n1 <= n2
    ensures FpsOf(At(t), n1).Rate? && FpsOf(At(t), n2).Rate?
    ensures 0.0 < FpsOf(At(t), n2).perSecond <= FpsOf(At(t), n1).perSecond
  {
    ThousandOverMonotone((n1 - t) as real, (n2 - t) as real);
  }

  /** `1000 / g` falls as a positive `g` grows. */
  lemma ThousandOverMonotone(g1: real, g2: real)
    requires 0.0 < g1 <= g2
    ensures 0.0 < 1000.0 / g2 <= 1000.0 / g1
  {
    var r1, r2 := 1000.0 / g1, 1000.0 / g2;
    assert r1 * g1 == 1000.0 && r2 * g2 == 1000.0;
    assert r2 * g1 <= r2 * g2;
    assert (r2 - r1) * g1 <= 0.0;
  }

  /** A clock that goes back gives a negative rate. */
  lemma FpsBackwards(t: int, now: int)
    requires now < t
    ensures FpsOf(At(t), now).Rate? && FpsOf(At(t), now).perSecond < 0.0
  {
  }

  /** The values the callback receives from frames run at the clock values
      `clock`, starting from `last`. */
  function FpsTrace(last: LastTick, clock: seq<int>): (r: seq<Fps>)
    ensures |r| == |clock|
    ensures |clock| > 0 ==> r[0] == FpsOf(last, clock[0])
    ensures forall i :: 0 < i < |clock| ==> r[i] == FpsOf(At(clock[i - 1]), clock[i])
  {
    if clock == [] then []
    else FpsTrace(last, clock[..|clock| - 1]) + [FpsOf(LastAfter(last, clock[..|clock| - 1]), clock[|clock| - 1])]
  }

  /** `last` after frames at the clock values `clock`. */
  function LastAfter(last: LastTick, clock: seq<int>): LastTick {
    if clock == [] then last else At(clock[|clock| - 1])
  }

  /** `e` is what is left of `d` after dropping some of its first elements. */
  predicate SuffixOf(d: seq<Sample>, e: seq<Sample>) {
    |e| <= |d| && e == d[|d| - |e|..]
  }

  lemma SuffixTrans(a: seq<Sample>, b: seq<Sample>, c: seq<Sample>)
    requires SuffixOf(a, b) && SuffixOf(b, c)
    ensures SuffixOf(a, c)
  {
    assert c == b[|b| - |c|..] == a[|a| - |b|..][|b| - |c|..];
    assert a[|a| - |b|..][|b| - |c|..] == a[|a| - |c|..];
  }

  /** Every series of every chart: what one frame may change. */
  function SeriesOfCharts(charts: seq<Chart>): set<Series>
    reads charts
  {
    set c, s | c in charts && s in c.series :: s
  }

  /** Every scale is positive (the `render` contract needs it). */
  predicate Scaled(charts: seq<Chart>) {
    forall c :: c in charts ==> c.options.scale > 0.0
  }

  /** The samples each series of `all` holds. */
  function DataOf(all: set<Series>): (m: map<Series, seq<Sample>>)
    reads all
    ensures m.Keys == all && forall s :: s in all ==> m[s] == s.data
  {
    map s | s in all :: s.data
  }

  /** No series is drawn by two different charts. A chart added twice is
      one chart: it draws its own series twice, at the same window edge. */
  predicate Unshared(charts: seq<Chart>)
    reads charts
  {
    forall k1, k2, s :: 0 <= k1 < k2 < |charts| && charts[k1] != charts[k2] && s in charts[k1].series ==>
      s !in charts[k2].series
  }

  /** What chart `chart` retained in a frame at `now`, given what its series
      held when the frame began (`start`): for each series a suffix of that,
      not empty if that was not, and, when no series is drawn by two
      different charts, exactly that evicted at the chart's window edge. */
  ghost predicate Kept(chart: Chart, kept: seq<seq<Sample>>, now: int,
                       start: map<Series, seq<Sample>>, unshared: bool)
    reads chart, chart.canvas
  {
    |kept| == |chart.series|
    && forall i :: 0 <= i < |kept| ==>
      chart.series[i] in start
      && SuffixOf(start[chart.series[i]], kept[i])
      && (start[chart.series[i]] != [] ==> kept[i] != [])
      && (unshared ==> kept[i] == Evicted(start[chart.series[i]],
                                          WindowFirst(chart.options, chart.canvas.clientWidth, now)))
  }

  class Scheduler {
    const hasCallback: bool
    var charts: seq<Chart>
    var loop: bool
    var last: LastTick
    /** Animation frames requested and not yet run. */
    var pendingFrames: nat
    /** The values passed to the callback, in order. */
    var reported: seq<Fps>

    /** A scheduler with no chart; `loop` and `last` are still undefined in
        JavaScript, which reads like `false` and `NotYet`. */
    constructor (hasCallback: bool)
      ensures this.hasCallback == hasCallback && charts == []
      ensures !loop && last == NotYet && pendingFrames == 0 && reported == []
    {
      this.hasCallback := hasCallback;
      charts := [];
      loop := false;
      last := NotYet;
      pendingFrames := 0;
      reported := [];
    }

    /** `addChart`: appended last, so rendered last; no duplicate check. */
    method AddChart(chart: Chart)
      modifies this
      ensures charts == old(charts) + [chart]
      ensures loop == old(loop) && last == old(last)
      ensures pendingFrames == old(pendingFrames) && reported == old(reported)
    {
      charts := charts + [chart];
    }

    /** `start`: set the loop flag and `last = 0`, then run a frame at once
        (which requests the next one). Starting twice starts a second chain
        of frames. */
    method Start(now: int) returns (batches: seq<seq<LineCmd>>, ghost retained: seq<seq<seq<Sample>>>)
      requires Scaled(charts)
      modifies this, SeriesOfCharts(charts)
      ensures charts == old(charts) && loop && last == At(now)
      ensures reported == if hasCallback then old(reported) + [FpsOf(At(0), now)] else old(reported)
      ensures pendingFrames == old(pendingFrames) + 1
      ensures Rendered(charts, batches, retained, now, old(DataOf(SeriesOfCharts(charts))))
      ensures Shrunk(SeriesOfCharts(charts), old(DataOf(SeriesOfCharts(charts))))
      ensures Unshared(charts) ==> Settled(charts, retained, |charts|)
    {
      ghost var start := DataOf(SeriesOfCharts(charts));
      Arm();
      assert DataOf(SeriesOfCharts(charts)) == start;
      batches, retained := Frame(now);
    }

    /** The first step of `start`: set the loop flag and `last = 0`. */
    method Arm()
      modifies this
      ensures loop && last == At(0)
      ensures charts == old(charts) && pendingFrames == old(pendingFrames) && reported == old(reported)
    {
      loop := true;
      last := At(0);
    }

    /** `stop`: only the flag is cleared; a frame already requested still runs. */
    method Stop()
      modifies this
      ensures !loop && charts == old(charts) && last == old(last)
      ensures pendingFrames == old(pendingFrames) && reported == old(reported)
    {
      loop := false;
    }

    /** `frame(now)`: report `1000 / (now - last)` when there is a callback,
        set `last`, render every chart in list order with the same `now`, and
        request the next frame exactly when the loop flag is set. The request
        is recorded here before the charts render: the browser cannot run it
        before `frame` returns, so the two orders cannot be told apart. */
    method Frame(now: int) returns (batches: seq<seq<LineCmd>>, ghost retained: seq<seq<seq<Sample>>>)
      requires Scaled(charts)
      modifies this, SeriesOfCharts(charts)
      ensures charts == old(charts) && loop == old(loop) && last == At(now)
      ensures reported == if hasCallback then old(reported) + [FpsOf(old(last), now)] else old(reported)
      ensures pendingFrames == old(pendingFrames) + if loop then 1 else 0
      ensures Rendered(charts, batches, retained, now, old(DataOf(SeriesOfCharts(charts))))
      ensures Shrunk(SeriesOfCharts(charts), old(DataOf(SeriesOfCharts(charts))))
      ensures Unshared(charts) ==> Settled(charts, retained, |charts|)
    {
      ghost var start := DataOf(SeriesOfCharts(charts));
      var fps := FpsOf(last, now);
      last := At(now);
      if hasCallback {
        reported := reported + [fps];
      }
      RequestFrame();
      assert DataOf(SeriesOfCharts(charts)) == start;
      batches, retained := RenderAll(charts, now);
    }

    /** The last step of `frame`: request the next animation frame exactly
        when the loop flag is set. */
    method RequestFrame()
      modifies this
      ensures pendingFrames == old(pendingFrames) + if loop then 1 else 0
      ensures charts == old(charts) && loop == old(loop) && last == old(last) && reported == old(reported)
    {
      if loop {
        pendingFrames := pendingFrames + 1;
      }
    }

    /** The browser runs one requested animation frame: it is no longer
        pending, and `frame` may request the next one. */
    method RunRequestedFrame(now: int) returns (batches: seq<seq<LineCmd>>, ghost retained: seq<seq<seq<Sample>>>)
      requires pendingFrames > 0 && Scaled(charts)
      modifies this, SeriesOfCharts(charts)
      ensures charts == old(charts) && loop == old(loop) && last == At(now)
      ensures reported == if hasCallback then old(reported) + [FpsOf(old(last), now)] else old(reported)
      ensures pendingFrames == old(pendingFrames) - 1 + if loop then 1 else 0
      ensures Rendered(charts, batches, retained, now, old(DataOf(SeriesOfCharts(charts))))
      ensures Shrunk(SeriesOfCharts(charts), old(DataOf(SeriesOfCharts(charts))))
      ensures Unshared(charts) ==> Settled(charts, retained, |charts|)
    {
      ghost var start := DataOf(SeriesOfCharts(charts));
      pendingFrames := pendingFrames - 1;
      assert DataOf(SeriesOfCharts(charts)) == start;
      batches, retained := Frame(now);
    }

    /** One turn of the loop in `RunAfterStop`: a requested frame runs while
        the loop flag is cleared, so it requests none. */
    method RunPending(now: int)
      requires !loop && pendingFrames > 0 && Scaled(charts)
      modifies this, SeriesOfCharts(charts)
      ensures !loop && charts == old(charts) && pendingFrames == old(pendingFrames) - 1 && last == At(now)
      ensures reported == old(reported) + if hasCallback then [FpsOf(old(last), now)] else []
    {
      var _, _ := RunRequestedFrame(now);
    }

    /** After `stop`, the browser runs the frames already requested, at the
        clock values `clock`, and then no more: exactly `pendingFrames` frames
        run, none is left pending, and the callback sees one value per frame,
        each computed from the previous frame's clock. */
    method RunAfterStop(clock: seq<int>) returns (ran: nat)
      requires !loop && Scaled(charts) && |clock| >= pendingFrames
      modifies this, SeriesOfCharts(charts)
      ensures ran == old(pendingFrames) && pendingFrames == 0 && !loop && charts == old(charts)
      ensures last == LastAfter(old(last), clock[..ran])
      ensures reported == old(reported) + if hasCallback then FpsTrace(old(last), clock[..ran]) else []
    {
      ran := 0;
      while pendingFrames > 0
        invariant !loop && charts == old(charts) && Scaled(charts)
        invariant ran + pendingFrames == old(pendingFrames)
        invariant last == LastAfter(old(last), clock[..ran])
        invariant reported == old(reported) + if hasCallback then FpsTrace(old(last), clock[..ran]) else []
        decreases pendingFrames
      {
        RunPending(clock[ran]);
        assert clock[..ran + 1][..ran] == clock[..ran];
        ran := ran + 1;
      }
    }

  }

  /** The chart loop of `frame`: batch `k` is what chart `k` renders from
      the data it retained, which `Kept` relates to what its series held
      when the frame began. A series drawn by two different charts is
      evicted by both, at two window edges; every series only ever loses
      samples from its front. */
  method RenderAll(charts: seq<Chart>, now: int) returns (batches: seq<seq<LineCmd>>, ghost retained: seq<seq<seq<Sample>>>)
    requires Scaled(charts)
    modifies SeriesOfCharts(charts)
    ensures Rendered(charts, batches, retained, now, old(DataOf(SeriesOfCharts(charts))))
    ensures Shrunk(SeriesOfCharts(charts), old(DataOf(SeriesOfCharts(charts))))
    ensures Unshared(charts) ==> Settled(charts, retained, |charts|)
  {
    ghost var all := SeriesOfCharts(charts);
    ghost var start := DataOf(all);
    ghost var done: set<Series> := {};
    batches := [];
    retained := [];
    var k := 0;
    while k < |charts|
      invariant k <= |charts| && RenderedUpTo(charts, batches, retained, now, start, k)
      invariant Shrunk(all, start) && Untouched(all, start, done) && DrawnAtEdge(charts, k, now, start, done)
      invariant Unshared(charts) ==> Settled(charts, retained, k)
    {
      batches, retained, done := RenderOne(charts, k, now, all, start, done, batches, retained);
      k := k + 1;
    }
  }

  /** When no series is drawn by two different charts, a series that a
      chart from `k` on draws and that is already in `done` (that chart was
      added earlier in the list too) holds its starting data evicted at that
      chart's window edge. */
  ghost predicate DrawnAtEdge(charts: seq<Chart>, k: nat, now: int, start: map<Series, seq<Sample>>,
                              done: set<Series>)
    reads charts, done, set c | c in charts :: c.canvas
  {
    Unshared(charts) ==>
      forall j, s :: k <= j < |charts| && s in charts[j].series && s in done ==>
        s in start && s.data == Evicted(start[s], WindowFirst(charts[j].options, charts[j].canvas.clientWidth, now))
  }

  /** One turn of the chart loop: `charts[k].render(now)`, its batch
      appended; `done` gains the chart's series. */
  method RenderOne(charts: seq<Chart>, k: nat, now: int, ghost all: set<Series>, ghost start: map<Series, seq<Sample>>,
                   ghost done: set<Series>, batches: seq<seq<LineCmd>>, ghost retained: seq<seq<seq<Sample>>>)
    returns (batches': seq<seq<LineCmd>>, ghost retained': seq<seq<seq<Sample>>>, ghost done': set<Series>)
    requires Scaled(charts) && k < |charts| && all == SeriesOfCharts(charts)
    requires RenderedUpTo(charts, batches, retained, now, start, k) && Shrunk(all, start)
    requires Untouched(all, start, done) && DrawnAtEdge(charts, k, now, start, done)
    requires Unshared(charts) ==> Settled(charts, retained, k)
    modifies all
    ensures RenderedUpTo(charts, batches', retained', now, start, k + 1) && Shrunk(all, start)
    ensures Untouched(all, start, done') && DrawnAtEdge(charts, k + 1, now, start, done')
    ensures Unshared(charts) ==> Settled(charts, retained', k + 1)
  {
    var chart := charts[k];
    forall s | s in chart.series ensures s in all {
      assert chart in charts;
    }
    ghost var unshared := Unshared(charts);
    ghost var first := WindowFirst(chart.options, chart.canvas.clientWidth, now);
    ghost var before := retained;
    var lines;
    ghost var kept;
    lines, kept, done' := DrawChart(chart, now, all, start, done, unshared);
    forall j, s | k + 1 <= j < |charts| && s in charts[j].series && s in done' && unshared
      ensures s in start
      ensures s.data == Evicted(start[s], WindowFirst(charts[j].options, charts[j].canvas.clientWidth, now))
    {
      if s in chart.series {
        SameChart(charts, k, j, s);
        var i :| 0 <= i < |chart.series| && chart.series[i] == s;
        assert s.data == kept[i];
      }
    }
    batches' := batches + [lines];
    retained' := retained + [kept];
    forall j, i | 0 <= j < k + 1 && 0 <= i < |charts[j].series| && unshared
      ensures i < |retained'[j]| && charts[j].series[i].data == retained'[j][i]
    {
      var s := charts[j].series[i];
      if j < k {
        assert s in charts[j].series;
        if s in chart.series {
          SameChart(charts, j, k, s);
          assert Kept(charts[j], before[j], now, start, true);
          var i' :| 0 <= i' < |chart.series| && chart.series[i'] == s;
          assert s.data == kept[i'] == Evicted(start[s], first) == before[j][i];
        }
      } else {
        assert s in chart.series;
      }
    }
    assert RenderedUpTo(charts, batches, retained, now, start, k);
    RenderedExtend(charts, batches, retained, now, start, k, lines, kept);
  }

  /** Two positions that draw the same series hold the same chart. */
  lemma SameChart(charts: seq<Chart>, k1: nat, k2: nat, s: Series)
    requires Unshared(charts) && k1 < |charts| && k2 < |charts|
    requires s in charts[k1].series && s in charts[k2].series
    ensures charts[k1] == charts[k2]
  {
    if k1 < k2 {
      assert !(charts[k1] != charts[k2]);
    } else if k2 < k1 {
      assert !(charts[k2] != charts[k1]);
    }
  }

  /** `chart.render(now)` inside the chart loop: the chart's series are
      evicted, the series outside `done` and the chart stay as `start`
      recorded, and `done` gains the chart's series. */
  method DrawChart(chart: Chart, now: int, ghost all: set<Series>, ghost start: map<Series, seq<Sample>>,
                   ghost done: set<Series>, ghost unshared: bool)
    returns (lines: seq<LineCmd>, ghost kept: seq<seq<Sample>>, ghost done': set<Series>)
    requires chart.options.scale > 0.0 && forall s :: s in chart.series ==> s in all
    requires Shrunk(all, start) && Untouched(all, start, done)
    requires unshared ==> forall s :: s in chart.series && s in done ==>
      s in start && s.data == Evicted(start[s], WindowFirst(chart.options, chart.canvas.clientWidth, now))
    modifies all
    ensures done' == done + set s | s in chart.series
    ensures Shrunk(all, start) && Untouched(all, start, done') && |kept| == |chart.series|
    ensures lines == ChartFrame(chart.options, chart.canvas.clientWidth, chart.canvas.clientHeight,
                                now, OptionsOf(chart.series), kept)
    ensures Kept(chart, kept, now, start, unshared)
    ensures forall i :: 0 <= i < |chart.series| ==> chart.series[i].data == kept[i]
    ensures forall s :: s in all && s !in chart.series ==> s.data == old(s.data)
  {
    lines := EvictChart(chart, now, all, start);
    ghost var first := WindowFirst(chart.options, chart.canvas.clientWidth, now);
    kept := RetainedOf(chart.series);
    forall i | 0 <= i < |kept|
      ensures chart.series[i] in start && SuffixOf(start[chart.series[i]], kept[i])
      ensures start[chart.series[i]] != [] ==> kept[i] != []
      ensures unshared ==> kept[i] == Evicted(start[chart.series[i]], first)
    {
      var s := chart.series[i];
      assert s in chart.series;
      assert kept[i] == s.data == Evicted(old(s.data), first);
      if unshared {
        EvictedAgain(start[s], old(s.data), first);
      }
    }
    done' := done + set s | s in chart.series;
  }

  /** `chart.render(now)` on its own: the chart's series are evicted at its
      window edge, every other series is unchanged, and so every series
      still holds a suffix of what `start` recorded. */
  method EvictChart(chart: Chart, now: int, ghost all: set<Series>, ghost start: map<Series, seq<Sample>>)
    returns (lines: seq<LineCmd>)
    requires chart.options.scale > 0.0 && forall s :: s in chart.series ==> s in all
    requires Shrunk(all, start)
    modifies all
    ensures lines == ChartFrame(chart.options, chart.canvas.clientWidth, chart.canvas.clientHeight,
                                now, OptionsOf(chart.series), RetainedOf(chart.series))
    ensures forall s :: s in chart.series ==>
      s.data == Evicted(old(s.data), WindowFirst(chart.options, chart.canvas.clientWidth, now))
    ensures forall s :: s in all && s !in chart.series ==> s.data == old(s.data)
    ensures Shrunk(all, start)
  {
    lines := chart.Render(now);
    ghost var first := WindowFirst(chart.options, chart.canvas.clientWidth, now);
    forall s | s in all
      ensures SuffixOf(start[s], s.data) && (start[s] != [] ==> s.data != [])
    {
      if s in chart.series {
        assert s.data == Evicted(old(s.data), first);
      } else {
        assert s.data == old(s.data);
      }
      SuffixTrans(start[s], old(s.data), s.data);
    }
  }

  /** Evicting data that is either untouched or already evicted at the same
      edge gives the same result. */
  lemma EvictedAgain(d: seq<Sample>, current: seq<Sample>, threshold: real)
    requires current == d || current == Evicted(d, threshold)
    ensures Evicted(current, threshold) == Evicted(d, threshold)
  {
    if current != d {
      EvictedIdempotent(d, threshold);
    }
  }

  /** The series of the first `n` charts hold what those charts retained. */
  ghost predicate Settled(charts: seq<Chart>, retained: seq<seq<seq<Sample>>>, n: nat)
    reads charts, set j, i | 0 <= j < |charts| && 0 <= i < |charts[j].series| :: charts[j].series[i]
  {
    n <= |charts| && n <= |retained|
    && forall j, i :: 0 <= j < n && 0 <= i < |charts[j].series| ==>
      i < |retained[j]| && charts[j].series[i].data == retained[j][i]
  }

  /** After a frame in which no series is drawn by two different charts,
      every series holds exactly what its chart's window keeps of what it
      held when the frame began. */
  lemma SettledEvicted(charts: seq<Chart>, batches: seq<seq<LineCmd>>, retained: seq<seq<seq<Sample>>>, now: int,
                       start: map<Series, seq<Sample>>)
    requires Scaled(charts) && Unshared(charts)
    requires Rendered(charts, batches, retained, now, start) && Settled(charts, retained, |charts|)
    ensures forall k, i :: 0 <= k < |charts| && 0 <= i < |charts[k].series| ==>
      charts[k].series[i] in start
      && charts[k].series[i].data
         == Evicted(start[charts[k].series[i]], WindowFirst(charts[k].options, charts[k].canvas.clientWidth, now))
  {
    forall k, i | 0 <= k < |charts| && 0 <= i < |charts[k].series|
      ensures charts[k].series[i] in start
      ensures charts[k].series[i].data
              == Evicted(start[charts[k].series[i]], WindowFirst(charts[k].options, charts[k].canvas.clientWidth, now))
    {
      assert Kept(charts[k], retained[k], now, start, true);
    }
  }

  /** A chart added twice is not a series drawn by two different charts. */
  lemma UnsharedRepeated(c: Chart)
    ensures Unshared([c, c])
  {
  }

  /** A chart added twice renders the same batch both times in a frame in
      which no series is drawn by two different charts: the second `render`
      sees the same window edge and evicts nothing more. */
  lemma RepeatedChartSameBatch(charts: seq<Chart>, batches: seq<seq<LineCmd>>, retained: seq<seq<seq<Sample>>>,
                               now: int, start: map<Series, seq<Sample>>, j: nat, k: nat)
    requires Scaled(charts) && Unshared(charts) && Rendered(charts, batches, retained, now, start)
    requires j < k < |charts| && charts[j] == charts[k]
    ensures retained[j] == retained[k] && batches[j] == batches[k]
  {
    assert Kept(charts[j], retained[j], now, start, true);
    assert Kept(charts[k], retained[k], now, start, true);
    assert |retained[j]| == |retained[k]|;
    forall i | 0 <= i < |retained[j]|
      ensures retained[j][i] == retained[k][i]
    {
    }
  }

  /** Batch `k` is the command list `render(now)` of chart `k` builds from
      the data `retained[k]` that chart retained, as `Kept` describes it
      against `start`, the data at the beginning of the frame. */
  ghost predicate Rendered(charts: seq<Chart>, batches: seq<seq<LineCmd>>, retained: seq<seq<seq<Sample>>>, now: int,
                           start: map<Series, seq<Sample>>)
    reads charts, set c | c in charts :: c.canvas
    requires Scaled(charts)
  {
    |batches| == |charts| && RenderedUpTo(charts, batches, retained, now, start, |charts|)
  }

  /** The first `n` charts are rendered as `Rendered` says. */
  ghost predicate RenderedUpTo(charts: seq<Chart>, batches: seq<seq<LineCmd>>, retained: seq<seq<seq<Sample>>>, now: int,
                               start: map<Series, seq<Sample>>, n: nat)
    reads charts, set c | c in charts :: c.canvas
    requires Scaled(charts) && n <= |charts|
  {
    |batches| == n && |retained| == n
    && forall k :: 0 <= k < n ==>
      |retained[k]| == |charts[k].series|
      && batches[k] == ChartFrame(charts[k].options, charts[k].canvas.clientWidth,
                                  charts[k].canvas.clientHeight, now,
                                  OptionsOf(charts[k].series), retained[k])
      && Kept(charts[k], retained[k], now, start, Unshared(charts))
  }

  /** A scheduler started once, run for one requested frame and stopped
      runs exactly one more frame, the one already requested; the callback
      sees the first frame measured from `last = 0`, then each frame measured
      from the one before. */
  method StartFrameStop(hasCallback: bool, t0: int, t1: int, t2: int) returns (s: Scheduler, ran: nat)
    ensures ran == 1 && s.pendingFrames == 0 && !s.loop && s.last == At(t2)
    ensures s.reported == if hasCallback then [FpsOf(At(0), t0), FpsOf(At(t0), t1), FpsOf(At(t1), t2)] else []
  {
    s := new Scheduler(hasCallback);
    var _, _ := s.Start(t0);
    var _, _ := s.RunRequestedFrame(t1);
    s.Stop();
    ran := s.RunAfterStop([t2]);
    assert [t2][..1] == [t2];
  }

  /** Rendering chart `k` extends what the first `k` charts rendered. */
  lemma RenderedExtend(charts: seq<Chart>, batches: seq<seq<LineCmd>>, retained: seq<seq<seq<Sample>>>,
                       now: int, start: map<Series, seq<Sample>>, k: nat,
                       lines: seq<LineCmd>, kept: seq<seq<Sample>>)
    requires Scaled(charts) && k < |charts| && RenderedUpTo(charts, batches, retained, now, start, k)
    requires |kept| == |charts[k].series| && Kept(charts[k], kept, now, start, Unshared(charts))
    requires lines == ChartFrame(charts[k].options, charts[k].canvas.clientWidth,
                                 charts[k].canvas.clientHeight, now, OptionsOf(charts[k].series), kept)
    ensures RenderedUpTo(charts, batches + [lines], retained + [kept], now, start, k + 1)
  {
  }

  /** The series of `all` outside `done` still hold what `start` recorded. */
  ghost predicate Untouched(all: set<Series>, start: map<Series, seq<Sample>>, done: set<Series>)
    reads all
  {
    forall s :: s in all && s !in done ==> s in start && s.data == start[s]
  }

  /** Every series of `all` holds a suffix of what `start` recorded for it,
      and is not empty if that was not. */
  ghost predicate Shrunk(all: set<Series>, start: map<Series, seq<Sample>>)
    reads all
  {
    forall s :: s in all ==>
      s in start && SuffixOf(start[s], s.data) && (start[s] != [] ==> s.data != [])
  }
}
