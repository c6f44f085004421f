/** The block-sample accumulator and the chart windows fed from it
    (src/collect/data.rs, src/widgets/chart.rs, src/widgets/txs.rs, src/widgets/time.rs). */
module BlockCharts {
  import opened Ordering

  const U64_MAX := 0xffff_ffff_ffff_ffff
  const MAX_DATA_POINTS := 200

  datatype Sample = Sample(number: nat, time: nat, txs: nat)

  datatype Chain = Chain(
    curBlockNumber: nat,
    curBlockTime: nat,
    prevBlockTime: nat,
    curTxs: nat,
    maxTxs: nat,
    maxTxsBlockNumber: nat,
    txns: seq<nat>,
    intervals: seq<nat>,
    curInterval: nat,
    maxInterval: nat)

  const NEW_CHAIN := Chain(0, 0, 0, 0, 0, 0, [0], [0], 0, 0)

  // ------------------------------------------------------- specification

  /** `saturating_sub`, then `saturating_mul(1000)`. */
  function IntervalMs(from: nat, till: nat): nat {
    var ms := (if till > from then till - from else 0) * 1000;
    if ms > U64_MAX then U64_MAX else ms
  }

  function Recorded(c: Chain, s: Sample): Chain {
    var prev := if c.curBlockTime > 0 then c.curBlockTime else c.prevBlockTime;
    var interval := IntervalMs(prev, s.time);
    c.(curBlockNumber := s.number,
       curBlockTime := s.time,
       prevBlockTime := prev,
       curTxs := s.txs,
       maxTxs := if s.txs > c.maxTxs then s.txs else c.maxTxs,
       maxTxsBlockNumber := if s.txs > c.maxTxs then s.number else c.maxTxsBlockNumber,
       txns := c.txns + [s.txs],
       intervals := if prev > 0 then c.intervals + [interval] else c.intervals,
       curInterval := if prev > 0 then interval else c.curInterval,
       maxInterval := if prev > 0 && interval > c.maxInterval then interval else c.maxInterval)
  }

  class ChainStats {
    var curBlockNumber: nat
    var curBlockTime: nat
    var prevBlockTime: nat
    var curTxs: nat
    var maxTxs: nat
    var maxTxsBlockNumber: nat
    var txns: seq<nat>
    var intervals: seq<nat>
    var curInterval: nat
    var maxInterval: nat

    function Contents(): Chain
      reads this
    {
      Chain(curBlockNumber, curBlockTime, prevBlockTime, curTxs, maxTxs, maxTxsBlockNumber,
        txns, intervals, curInterval, maxInterval)
    }

    constructor ()
      ensures Contents() == NEW_CHAIN
    {
      curBlockNumber, curBlockTime, prevBlockTime := 0, 0, 0;
      curTxs, maxTxs, maxTxsBlockNumber := 0, 0, 0;
      txns, intervals := [0], [0];
      curInterval, maxInterval := 0, 0;
    }

    method RecordBlockSample(number: nat, time: nat, txs: nat)
      modifies this
      ensures Contents() == Recorded(old(Contents()), Sample(number, time, txs))
    {
      hide IntervalMs;
      curBlockNumber := number;
      if curBlockTime > 0 {
        prevBlockTime := curBlockTime;
      }
      curBlockTime := time;
      curTxs := txs;
      if txs > maxTxs {
        maxTxs := txs;
        maxTxsBlockNumber := number;
      }
      txns := txns + [txs];
      if prevBlockTime > 0 {
        var interval := IntervalMs(prevBlockTime, curBlockTime);
        curInterval := interval;
        if interval > maxInterval {
          maxInterval := interval;
        }
        intervals := intervals + [interval];
      }
    }

    method TxnsAndClear() returns (drained: seq<nat>)
      modifies this
      ensures drained == old(txns) && Contents() == old(Contents()).(txns := [])
    {
      drained := txns;
      txns := [];
    }

    method IntervalsAndClear() returns (drained: seq<nat>)
      modifies this
      ensures drained == old(intervals) && Contents() == old(Contents()).(intervals := [])
    {
      drained := intervals;
      intervals := [];
    }
  }

  // -------------------------------------------- what a history determines

  function TxsOf(samples: seq<Sample>): seq<nat> {
    seq(|samples|, i requires 0 <= i < |samples| => samples[i].txs)
  }

  /** The last positive timestamp, 0 if there is none. */
  function LastTime(samples: seq<Sample>): nat {
    if samples == [] then 0
    else if samples[|samples| - 1].time > 0 then samples[|samples| - 1].time
    else LastTime(samples[..|samples| - 1])
  }

  /** One interval per sample that has a positively stamped predecessor. */
  function IntervalsOf(samples: seq<Sample>): seq<nat> {
    if samples == [] then []
    else
      var n := |samples| - 1;
      var prev := LastTime(samples[..n]);
      IntervalsOf(samples[..n]) + if prev > 0 then [IntervalMs(prev, samples[n].time)] else []
  }

  /** `m` is the largest element, 0 for none. */
  ghost predicate IsMax(m: nat, xs: seq<nat>) {
    && (forall x | x in xs :: x <= m)
    && (m == 0 || m in xs)
  }

  /** The block that first reached the maximum; none is named while the maximum is 0. */
  ghost predicate FirstAttains(max: nat, number: nat, samples: seq<Sample>) {
    if max == 0 then number == 0
    else exists k :: 0 <= k < |samples| && samples[k].txs == max && samples[k].number == number
                     && forall j | 0 <= j < k :: samples[j].txs < max
  }

  /** What was drained, with what is still buffered behind it, is the initial 0 and then the whole history. */
  ghost predicate Streams(c: Chain, samples: seq<Sample>, drainedTxs: seq<nat>, drainedIntervals: seq<nat>) {
    && drainedTxs + c.txns == [0] + TxsOf(samples)
    && drainedIntervals + c.intervals == [0] + IntervalsOf(samples)
  }

  ghost predicate Maxima(c: Chain, samples: seq<Sample>) {
    && IsMax(c.maxTxs, TxsOf(samples))
    && FirstAttains(c.maxTxs, c.maxTxsBlockNumber, samples)
    && IsMax(c.maxInterval, IntervalsOf(samples))
  }

  ghost predicate Latest(c: Chain, samples: seq<Sample>) {
    if samples == [] then
      c.curBlockNumber == c.curTxs == c.curBlockTime == c.prevBlockTime == c.curInterval == 0
    else
      var n := |samples| - 1;
      && c.curBlockNumber == samples[n].number && c.curTxs == samples[n].txs && c.curBlockTime == samples[n].time
      && c.prevBlockTime == LastTime(samples[..n])
      && c.curInterval == LastOr(IntervalsOf(samples), 0)
  }

  /** The accumulator's figures, and its buffers together with what was drained, as functions of the history. */
  ghost predicate Summarises(c: Chain, samples: seq<Sample>, drainedTxs: seq<nat>, drainedIntervals: seq<nat>) {
    && Streams(c, samples, drainedTxs, drainedIntervals)
    && Maxima(c, samples)
    && Latest(c, samples)
  }

  lemma IsMaxStep(m: nat, xs: seq<nat>, x: nat)
    requires IsMax(m, xs)
    ensures IsMax(if x > m then x else m, xs + [x])
  {
    var all := xs + [x];
    assert all[|xs|] == x;
    assert forall y | y in xs :: y in all;
  }

  lemma AttainsStep(max: nat, number: nat, samples: seq<Sample>, s: Sample)
    requires FirstAttains(max, number, samples) && IsMax(max, TxsOf(samples))
    ensures FirstAttains(if s.txs > max then s.txs else max, if s.txs > max then s.number else number, samples + [s])
  {
    var all := samples + [s];
    assert all[..|samples|] == samples;
    if s.txs > max {
      var n := |samples|;
      forall j | 0 <= j < n ensures all[j].txs < s.txs {
        var txs := TxsOf(samples);
        assert all[j] == samples[j] && samples[j].txs == txs[j];
        assert txs[j] in txs;
      }
      assert all[n] == s;
    } else if max > 0 {
      var k :| 0 <= k < |samples| && samples[k].txs == max && samples[k].number == number
               && forall j | 0 <= j < k :: samples[j].txs < max;
      assert all[k] == samples[k];
      assert forall j | 0 <= j < k :: all[j] == samples[j];
    }
  }

  /** Recording a sample records its transaction count and, once a stamped block precedes it, one interval. */
  lemma HistoryStep(samples: seq<Sample>, s: Sample)
    ensures TxsOf(samples + [s]) == TxsOf(samples) + [s.txs]
    ensures LastTime(samples) > 0 ==>
              IntervalsOf(samples + [s]) == IntervalsOf(samples) + [IntervalMs(LastTime(samples), s.time)]
    ensures LastTime(samples) == 0 ==> IntervalsOf(samples + [s]) == IntervalsOf(samples)
  {
    var all := samples + [s];
    assert all[..|samples|] == samples && all[|samples|] == s;
  }

  lemma PreviousTime(c: Chain, samples: seq<Sample>, s: Sample)
    requires Latest(c, samples)
    ensures Recorded(c, s).prevBlockTime == LastTime(samples)
  {
  }

  lemma StreamsStep(c: Chain, samples: seq<Sample>, drainedTxs: seq<nat>, drainedIntervals: seq<nat>,
                    s: Sample)
    requires Streams(c, samples, drainedTxs, drainedIntervals) && Latest(c, samples)
    ensures Streams(Recorded(c, s), samples + [s], drainedTxs, drainedIntervals)
  {
    hide TxsOf, IntervalsOf, LastTime, IntervalMs;
    var r := Recorded(c, s);
    HistoryStep(samples, s);
    PreviousTime(c, samples, s);
    assert drainedTxs + r.txns == (drainedTxs + c.txns) + [s.txs];
    if LastTime(samples) > 0 {
      assert drainedIntervals + r.intervals
          == (drainedIntervals + c.intervals) + [IntervalMs(LastTime(samples), s.time)];
    }
  }

  lemma MaximaStep(c: Chain, samples: seq<Sample>, s: Sample)
    requires Maxima(c, samples) && Latest(c, samples)
    ensures Maxima(Recorded(c, s), samples + [s])
  {
    hide TxsOf, IntervalsOf, LastTime, IntervalMs, IsMax, FirstAttains;
    HistoryStep(samples, s);
    PreviousTime(c, samples, s);
    IsMaxStep(c.maxTxs, TxsOf(samples), s.txs);
    AttainsStep(c.maxTxs, c.maxTxsBlockNumber, samples, s);
    IsMaxStep(c.maxInterval, IntervalsOf(samples), IntervalMs(LastTime(samples), s.time));
  }

  lemma LatestStep(c: Chain, samples: seq<Sample>, s: Sample)
    requires Latest(c, samples)
    ensures Latest(Recorded(c, s), samples + [s])
  {
    hide TxsOf, IntervalsOf, LastTime, IntervalMs;
    var all := samples + [s];
    assert all[..|samples|] == samples && all[|samples|] == s;
    HistoryStep(samples, s);
    PreviousTime(c, samples, s);
    NoIntervalsYet(samples);
  }

  /** Until a stamped block has been seen there is no interval to show. */
  lemma {:induction false} NoIntervalsYet(samples: seq<Sample>)
    ensures LastTime(samples) == 0 ==> IntervalsOf(samples) == []
  {
    if samples != [] {
      NoIntervalsYet(samples[..|samples| - 1]);
    }
  }

  /** Recording keeps the summary, for every sample. */
  lemma RecordSummarises(c: Chain, samples: seq<Sample>, drainedTxs: seq<nat>,
                         drainedIntervals: seq<nat>, s: Sample)
    requires Summarises(c, samples, drainedTxs, drainedIntervals)
    ensures Summarises(Recorded(c, s), samples + [s], drainedTxs, drainedIntervals)
  {
    hide Streams, Maxima, Latest, Recorded;
    StreamsStep(c, samples, drainedTxs, drainedIntervals, s);
    MaximaStep(c, samples, s);
    LatestStep(c, samples, s);
  }

  /** Draining moves a buffer behind what was drained before. */
  lemma DrainSummarises(c: Chain, samples: seq<Sample>, drainedTxs: seq<nat>,
                        drainedIntervals: seq<nat>)
    requires Summarises(c, samples, drainedTxs, drainedIntervals)
    ensures Summarises(c.(txns := []), samples, drainedTxs + c.txns, drainedIntervals)
    ensures Summarises(c.(intervals := []), samples, drainedTxs, drainedIntervals + c.intervals)
  {
    assert drainedTxs + c.txns + [] == drainedTxs + c.txns;
    assert drainedIntervals + c.intervals + [] == drainedIntervals + c.intervals;
  }

  lemma NewChainSummarises()
    ensures Summarises(NEW_CHAIN, [], [], [])
  {
    assert [] + NEW_CHAIN.txns == [0] + TxsOf([]);
    assert [] + NEW_CHAIN.intervals == [0] + IntervalsOf([]);
  }

  lemma {:induction false} LastTimeIs(samples: seq<Sample>, i: nat)
    requires i < |samples| && samples[i].time > 0 && forall j | i < j < |samples| :: samples[j].time == 0
    ensures LastTime(samples) == samples[i].time
  {
    if i < |samples| - 1 {
      LastTimeIs(samples[..|samples| - 1], i);
    }
  }

  lemma {:induction false} NoTimeYet(samples: seq<Sample>)
    requires forall j | 0 <= j < |samples| :: samples[j].time == 0
    ensures LastTime(samples) == 0
  {
    if samples != [] {
      NoTimeYet(samples[..|samples| - 1]);
    }
  }

  /** A block's interval is the time since the last stamped block before it, in milliseconds of its seconds: 0 if the
      clock went back, and at most what 64 bits hold. No interval is recorded before a stamped block was seen. */
  lemma IntervalIsTheGap(samples: seq<Sample>, s: Sample)
    ensures forall i: nat | i < |samples| && samples[i].time > 0
                            && (forall j | i < j < |samples| :: samples[j].time == 0) ::
              var gap := if s.time <= samples[i].time then 0
                         else Min(1000 * (s.time - samples[i].time), 0xffff_ffff_ffff_ffff);
              IntervalsOf(samples + [s]) == IntervalsOf(samples) + [gap]
    ensures (forall j | 0 <= j < |samples| :: samples[j].time == 0) ==> IntervalsOf(samples + [s]) == []
  {
    hide IntervalsOf, LastTime;
    HistoryStep(samples, s);
    forall i: nat | i < |samples| && samples[i].time > 0 && forall j | i < j < |samples| :: samples[j].time == 0
      ensures LastTime(samples) == samples[i].time
    {
      LastTimeIs(samples, i);
    }
    if forall j | 0 <= j < |samples| :: samples[j].time == 0 {
      NoTimeYet(samples);
      NoIntervalsYet(samples);
    }
  }

  /** Blocks stamped 100 and 106 are six seconds apart. */
  lemma SixSeconds(a: Sample, b: Sample)
    requires a.time == 100 && b.time == 106
    ensures IntervalsOf([a, b]) == [6000]
  {
    assert [a] + [b] == [a, b] && [] + [a] == [a];
    IntervalIsTheGap([], a);
    IntervalIsTheGap([a], b);
  }

  // ----------------------------------------------------------- the charts

  type Point = (nat, nat)

  function Enumerate(start: nat, samples: seq<nat>): seq<Point> {
    seq(|samples|, i requires 0 <= i < |samples| => (start + i, samples[i]))
  }

  function LastPoints(points: seq<Point>): seq<Point> {
    points[|points| - Min(|points|, MAX_DATA_POINTS)..]
  }

  /** What a chart shows after being fed `stream` in any portions. */
  function ChartOf(stream: seq<nat>): seq<Point> {
    LastPoints([(0, 0)] + Enumerate(0, stream))
  }

  lemma EmptyChart()
    ensures ChartOf([]) == [(0, 0)]
  {
    assert [(0, 0)] + Enumerate(0, []) == [(0, 0)];
  }

  class Chart {
    var data: seq<Point>
    var updateCount: nat

    constructor ()
      ensures data == ChartOf([]) && updateCount == 0
    {
      data, updateCount := [(0, 0)], 0;
      EmptyChart();
    }

    method TrimDataPoints(maxDataPoints: nat)
      modifies this
      ensures data == old(data)[|old(data)| - Min(|old(data)|, maxDataPoints)..] && updateCount == old(updateCount)
    {
      if |data| > maxDataPoints {
        data := data[|data| - maxDataPoints..];
      }
    }

    method AppendU64Samples(samples: seq<nat>)
      modifies this
      ensures data == LastPoints(old(data) + Enumerate(old(updateCount), samples))
      ensures updateCount == old(updateCount) + |samples|
    {
      for i := 0 to |samples|
        invariant data == old(data) + Enumerate(old(updateCount), samples[..i])
        invariant updateCount == old(updateCount) + i
      {
        assert Enumerate(old(updateCount), samples[..i + 1])
            == Enumerate(old(updateCount), samples[..i]) + [(old(updateCount) + i, samples[i])];
        data := data + [(updateCount, samples[i])];
        updateCount := updateCount + 1;
      }
      assert samples[..|samples|] == samples;
      TrimDataPoints(MAX_DATA_POINTS);
    }
  }

  /** A chart shows the last 200 of the initial point and the samples in their order, each at its number. */
  lemma ChartPoints(stream: seq<nat>)
    ensures |ChartOf(stream)| == Min(|stream| + 1, 200)
    ensures forall j | 0 <= j < |ChartOf(stream)| ::
              var n := |stream| - |ChartOf(stream)| + j;
              ChartOf(stream)[j] == if n < 0 then (0, 0) else (n, stream[n])
  {
    hide Enumerate;
    var points := Enumerate(0, stream);
    Enumerated(stream);
    var whole := [(0, 0)] + points;
    var first := |whole| - Min(|whole|, 200);
    forall j | 0 <= j < |whole| - first
      ensures ChartOf(stream)[j] == if first + j == 0 then (0, 0) else points[first + j - 1]
    {
      assert whole[first..][j] == whole[first + j];
    }
  }

  lemma Enumerated(samples: seq<nat>)
    ensures |Enumerate(0, samples)| == |samples|
    ensures forall k | 0 <= k < |samples| :: Enumerate(0, samples)[k] == (k, samples[k])
  {
  }

  /** Trimming early never shows: appending to the window is appending to the whole stream. */
  lemma ChartAppend(stream: seq<nat>, more: seq<nat>)
    ensures LastPoints(ChartOf(stream) + Enumerate(|stream|, more)) == ChartOf(stream + more)
  {
    var whole := [(0, 0)] + Enumerate(0, stream);
    var tail := Enumerate(|stream|, more);
    assert Enumerate(0, stream + more) == Enumerate(0, stream) + tail;
    assert [(0, 0)] + Enumerate(0, stream + more) == whole + tail;
    var k := |whole| - Min(|whole|, MAX_DATA_POINTS);
    assert (whole + tail)[k..] == whole[k..] + tail;
    var window := whole[k..] + tail;
    var m := |window| - Min(|window|, MAX_DATA_POINTS);
    assert window[m..] == (whole + tail)[k + m..];
  }

  datatype TxsView = TxsView(curNum: nat, curTxs: nat, max: nat, maxBlockNumber: nat, points: seq<Point>, count: nat)

  datatype TimeView = TimeView(curNum: nat, curTime: nat, maxTime: nat, points: seq<Point>, count: nat)

  const NEW_TXS_VIEW := TxsView(0, 0, 0, 0, [(0, 0)], 0)
  const NEW_TIME_VIEW := TimeView(0, 0, 0, [(0, 0)], 0)

  function TxsFed(v: TxsView, c: Chain): TxsView {
    TxsView(c.curBlockNumber, c.curTxs, c.maxTxs, c.maxTxsBlockNumber,
            LastPoints(v.points + Enumerate(v.count, c.txns)), v.count + |c.txns|)
  }

  function TimeFed(v: TimeView, c: Chain): TimeView {
    TimeView(c.curBlockNumber, c.curInterval, c.maxInterval,
             LastPoints(v.points + Enumerate(v.count, c.intervals)), v.count + |c.intervals|)
  }

  class TxsWidget {
    const chart: Chart
    var curNum: nat
    var curTxs: nat
    var max: nat
    var maxBlockNumber: nat

    function View(): TxsView
      reads this, chart
    {
      TxsView(curNum, curTxs, max, maxBlockNumber, chart.data, chart.updateCount)
    }

    constructor ()
      ensures fresh(chart) && View() == NEW_TXS_VIEW
    {
      curNum, curTxs, max, maxBlockNumber := 0, 0, 0, 0;
      chart := new Chart();
      new;
      EmptyChart();
    }

    method Update(stats: ChainStats)
      modifies this, chart, stats
      ensures View() == TxsFed(old(View()), old(stats.Contents()))
      ensures stats.Contents() == old(stats.Contents()).(txns := [])
    {
      curNum := stats.curBlockNumber;
      curTxs := stats.curTxs;
      max := stats.maxTxs;
      maxBlockNumber := stats.maxTxsBlockNumber;
      var data := stats.TxnsAndClear();
      chart.AppendU64Samples(data);
    }
  }

  class TimeWidget {
    const chart: Chart
    var curNum: nat
    var curTime: nat
    var maxTime: nat

    function View(): TimeView
      reads this, chart
    {
      TimeView(curNum, curTime, maxTime, chart.data, chart.updateCount)
    }

    constructor ()
      ensures fresh(chart) && View() == NEW_TIME_VIEW
    {
      curNum, curTime, maxTime := 0, 0, 0;
      chart := new Chart();
      new;
      EmptyChart();
    }

    method Update(stats: ChainStats)
      modifies this, chart, stats
      ensures View() == TimeFed(old(View()), old(stats.Contents()))
      ensures stats.Contents() == old(stats.Contents()).(intervals := [])
    {
      curNum := stats.curBlockNumber;
      curTime := stats.curInterval;
      maxTime := stats.maxInterval;
      var data := stats.IntervalsAndClear();
      chart.AppendU64Samples(data);
    }
  }
}
