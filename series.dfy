/** One data stream of a chart: an append-only list of (time, value) samples
    with a left-edge eviction rule that bounds memory to the visible window. */
module TimeSeries {
  import opened Colors

  /** A sample: its timestamp in milliseconds and its value. */
  datatype Sample = Sample(time: real, value: real)

  /** Series options after merging with the defaults. */
  datatype SeriesOptions = SeriesOptions(min: real, max: real, color: Color, thickness: int)

  const DefaultSeriesOptions := SeriesOptions(-1.0, 1.0, Css("black"), 2)

  /** Timestamps never decrease along the list. */
  ghost predicate Sorted(d: seq<Sample>) {
    forall i, j :: 0 <= i < j < |d| ==> d[i].time <= d[j].time
  }

  /** The index the forward scan of `removeOlderThan` stops at: the first
      sample whose time is at or after `threshold`, or `|d|` if there is none. */
  function FirstAtOrAfter(d: seq<Sample>, threshold: real): (i: nat)
    ensures i <= |d|
    ensures forall j :: 0 <= j < i ==> d[j].time < threshold
    ensures i < |d| ==> d[i].time >= threshold
  {
    if d == [] || d[0].time >= threshold then 0
    else 1 + FirstAtOrAfter(d[1..], threshold)
  }

  /** The scan's stopping point is the only index with its two properties. */
  lemma {:induction false} FirstAtOrAfterUnique(d: seq<Sample>, threshold: real, i: nat)
    requires i <= |d|
    requires forall j :: 0 <= j < i ==> d[j].time < threshold
    requires i < |d| ==> d[i].time >= threshold
    ensures i == FirstAtOrAfter(d, threshold)
  {
    if d != [] && d[0].time < threshold {
      assert i > 0;
      FirstAtOrAfterUnique(d[1..], threshold, i - 1);
    }
  }

  /** Where the retained data starts: one sample before the scan's stop. */
  function KeepFrom(d: seq<Sample>, threshold: real): (k: nat)
    ensures k <= |d| && (k < |d| || d == [])
  {
    var i := FirstAtOrAfter(d, threshold);
    if i > 0 then i - 1 else 0
  }

  /** The data `removeOlderThan(threshold)` leaves: a suffix of `d`. */
  function Evicted(d: seq<Sample>, threshold: real): (r: seq<Sample>)
    ensures |r| <= |d| && r == d[|d| - |r|..]
    ensures d != [] ==> r != []
    ensures d == [] || d[0].time >= threshold ==> r == d
  {
    d[KeepFrom(d, threshold)..]
  }

  /** Every sample at or after the threshold is retained, sorted or not. */
  lemma EvictedKeepsWindow(d: seq<Sample>, threshold: real, j: nat)
    requires j < |d| && d[j].time >= threshold
    ensures j >= |d| - |Evicted(d, threshold)|
    ensures d[j] in Evicted(d, threshold)
  {
    var k := KeepFrom(d, threshold);
    assert d[j] == Evicted(d, threshold)[j - k];
  }

  /** On sorted data a sample is retained exactly when it lies in the window
      or it is the last sample before the window. */
  lemma EvictedExactly(d: seq<Sample>, threshold: real, j: nat)
    requires Sorted(d) && j < |d|
    ensures j >= |d| - |Evicted(d, threshold)|
        <==> (d[j].time >= threshold
              || (j + 1 == |d| || d[j + 1].time >= threshold))
  {
    var i := FirstAtOrAfter(d, threshold);
    if d[j].time < threshold && j + 1 < |d| && d[j + 1].time >= threshold {
      assert j + 1 >= i;
    }
  }

  /** On sorted data at most one retained sample is older than the threshold,
      and it is the first one. */
  lemma EvictedAtMostOneOlder(d: seq<Sample>, threshold: real)
    requires Sorted(d)
    ensures forall j :: 1 <= j < |Evicted(d, threshold)| ==>
      Evicted(d, threshold)[j].time >= threshold
  {
    var r := Evicted(d, threshold);
    var k := KeepFrom(d, threshold);
    forall j | 1 <= j < |r| ensures r[j].time >= threshold {
      assert r[j] == d[k + j];
      var i := FirstAtOrAfter(d, threshold);
      assert i < |d|;
      assert k + j >= i;
    }
  }

  /** When every sample is older than the threshold only the newest is kept. */
  lemma EvictedAllOlder(d: seq<Sample>, threshold: real)
    requires d != []
    requires forall j :: 0 <= j < |d| ==> d[j].time < threshold
    ensures Evicted(d, threshold) == [d[|d| - 1]]
  {
    FirstAtOrAfterUnique(d, threshold, |d|);
  }

  /** A later threshold stops the scan no earlier. */
  lemma FirstAtOrAfterMonotone(d: seq<Sample>, t1: real, t2: real)
    requires t1 <= t2
    ensures FirstAtOrAfter(d, t1) <= FirstAtOrAfter(d, t2)
  {
    var i1, i2 := FirstAtOrAfter(d, t1), FirstAtOrAfter(d, t2);
    assert forall j :: 0 <= j < i1 ==> d[j].time < t2;
  }

  /** Dropping `k` samples the scan passes over moves its stop `k` earlier. */
  lemma FirstAtOrAfterDrop(d: seq<Sample>, threshold: real, k: nat)
    requires k <= FirstAtOrAfter(d, threshold)
    ensures FirstAtOrAfter(d[k..], threshold) == FirstAtOrAfter(d, threshold) - k
  {
    var i := FirstAtOrAfter(d, threshold);
    var e := d[k..];
    forall j | 0 <= j < i - k ensures e[j].time < threshold {
      assert e[j] == d[k + j];
    }
    if i - k < |e| {
      assert e[i - k] == d[i];
    }
    FirstAtOrAfterUnique(e, threshold, i - k);
  }

  /** Evicting at `t1` and then at a later `t2` is the same as evicting once at
      `t2`: eviction once per frame with a non-decreasing window edge keeps
      exactly what a single eviction at the latest edge would. */
  lemma EvictedCompose(d: seq<Sample>, t1: real, t2: real)
    requires t1 <= t2
    ensures Evicted(Evicted(d, t1), t2) == Evicted(d, t2)
  {
    FirstAtOrAfterMonotone(d, t1, t2);
    var k1 := KeepFrom(d, t1);
    FirstAtOrAfterDrop(d, t2, k1);
    var k2 := KeepFrom(d[k1..], t2);
    assert k1 + k2 == KeepFrom(d, t2);
    assert d[k1..][k2..] == d[k1 + k2..];
  }

  /** Evicting twice at the same edge changes nothing the second time. */
  lemma EvictedIdempotent(d: seq<Sample>, threshold: real)
    ensures Evicted(Evicted(d, threshold), threshold) == Evicted(d, threshold)
  {
    EvictedCompose(d, threshold, threshold);
  }

  /** A suffix of sorted data is sorted. */
  lemma EvictedSorted(d: seq<Sample>, threshold: real)
    requires Sorted(d)
    ensures Sorted(Evicted(d, threshold))
  {
  }

  /** Appending a sample no older than the newest keeps the data sorted. */
  lemma AppendSorted(d: seq<Sample>, s: Sample)
    requires Sorted(d) && (d == [] || d[|d| - 1].time <= s.time)
    ensures Sorted(d + [s])
  {
  }

  /** The eviction example: samples at 0, 100, 200, 300 and an edge at 150
      keep the sample at 100 and everything after it. */
  lemma EvictionExample()
    ensures Evicted([Sample(0.0, 0.5), Sample(100.0, 0.6), Sample(200.0, -0.2), Sample(300.0, 0.9)], 150.0)
         == [Sample(100.0, 0.6), Sample(200.0, -0.2), Sample(300.0, 0.9)]
  {
    var d := [Sample(0.0, 0.5), Sample(100.0, 0.6), Sample(200.0, -0.2), Sample(300.0, 0.9)];
    FirstAtOrAfterUnique(d, 150.0, 2);
  }

  /** `Series`: the options fixed at construction and the sample list. */
  class Series {
    const options: SeriesOptions
    var data: seq<Sample>

    constructor (options: SeriesOptions)
      ensures this.options == options && data == []
    {
      this.options := options;
      data := [];
    }

    /** `append`: one sample at the end; earlier samples are untouched. */
    method Append(time: real, value: real)
      modifies this
      ensures data == old(data) + [Sample(time, value)]
      ensures |data| == |old(data)| + 1 && data[..|old(data)|] == old(data)
    {
      data := data + [Sample(time, value)];
    }

    /** `removeOlderThan`: scan forward to the first sample at or after the
        threshold, step back one sample if the scan moved, drop the prefix. */
    method RemoveOlderThan(timestamp: real)
      modifies this
      ensures data == Evicted(old(data), timestamp)
    {
      var i := 0;
      var l := |data|;
      while i < l
        invariant 0 <= i <= l == |data|
        invariant forall j :: 0 <= j < i ==> data[j].time < timestamp
      {
        if data[i].time >= timestamp {
          break;
        }
        i := i + 1;
      }
      FirstAtOrAfterUnique(data, timestamp, i);
      if i > 0 {
        i := i - 1;  // retain the newest sample before the window edge
      }
      data := data[i..];
    }
  }
}
