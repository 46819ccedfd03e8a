/**
 Metric charts of one node: rows are cut into segments at gaps and restarts, and counter deltas are accumulated,
 once as a single total and once as a chart. A row carries the counter that was selected for display.
 */
module MetricSeries {
  import opened Basics
  import opened StableSort
  import opened ChartPoints

  datatype Uptime = Unreported | Seconds(value: int)
  datatype Row = Row(ts: int, uptime: Uptime, value: real)

  const MIN_GAP_BREAK_SECONDS := 30
  const GAP_BREAK_MULTIPLIER := 6

  function GetChartPointBudget(rangeSeconds: int): (r: nat)
    ensures 120 <= r <= 360
    ensures (r == 120 <==> rangeSeconds <= 3600) && (r <= 180 <==> rangeSeconds <= 6 * 3600)
    ensures (r <= 240 <==> rangeSeconds <= 24 * 3600) && (r <= 280 <==> rangeSeconds <= 7 * 24 * 3600)
    ensures r in {120, 180, 240, 280, 360}
  {
    if rangeSeconds <= 3600 then 120
    else if rangeSeconds <= 21600 then 180
    else if rangeSeconds <= 86400 then 240
    else if rangeSeconds <= 604800 then 280
    else 360
  }

  // ---------------------------------------------------------------- the gap threshold

  /** The positive distances between neighbouring rows. */
  function Gaps(rows: seq<Row>): seq<Keyed> {
    if |rows| < 2 then []
    else
      var n := |rows| - 1;
      var delta := rows[n].ts - rows[n - 1].ts;
      Gaps(rows[..n]) + if delta > 0 then [Keyed(delta, n)] else []
  }

  predicate Later(rows: seq<Row>, k: nat) {
    0 < k < |rows| && rows[k].ts > rows[k - 1].ts
  }

  function Distance(rows: seq<Row>, k: nat): int
    requires Later(rows, k)
  {
    rows[k].ts - rows[k - 1].ts
  }

  lemma LaterInFront(rows: seq<Row>, n: nat, k: nat)
    requires k < n <= |rows|
    ensures Later(rows[..n], k) <==> Later(rows, k)
    ensures Later(rows, k) ==> Distance(rows[..n], k) == Distance(rows, k)
  {
  }

  /** The rows that are later than the one before, and those of them within a bound. */
  function LaterRows(rows: seq<Row>): set<nat> {
    set k: nat | k < |rows| && Later(rows, k)
  }

  function Within(rows: seq<Row>, bound: int): set<nat> {
    set k: nat | k < |rows| && Later(rows, k) && Distance(rows, k) <= bound
  }

  lemma LastWithin(rows: seq<Row>, bound: int)
    requires |rows| >= 2
    ensures var n := |rows| - 1;
      && LaterRows(rows) == LaterRows(rows[..n]) + (if Later(rows, n) then {n} else {})
      && Within(rows, bound) ==
         Within(rows[..n], bound) + (if Later(rows, n) && Distance(rows, n) <= bound then {n} else {})
  {
    var n := |rows| - 1;
    forall k: nat | k < n
      ensures Later(rows[..n], k) <==> Later(rows, k)
      ensures Later(rows, k) ==> Distance(rows[..n], k) == Distance(rows, k)
    {
      LaterInFront(rows, n, k);
    }
  }

  lemma {:induction false} UpToOneMore(s: seq<Keyed>, x: Keyed, bound: int)
    ensures UpTo(s + [x], bound) == UpTo(s, bound) + if x.key <= bound then 1 else 0
  {
    if s == [] {
      assert ([] + [x])[1..] == [];
    } else {
      assert (s + [x])[1..] == s[1..] + [x];
      UpToOneMore(s[1..], x, bound);
    }
  }

  /** The gaps are counted by the rows that are later than the one before. */
  lemma {:induction false} GapsCount(rows: seq<Row>, bound: int)
    ensures |Gaps(rows)| == |LaterRows(rows)| && UpTo(Gaps(rows), bound) == |Within(rows, bound)|
  {
    if |rows| < 2 {
      assert LaterRows(rows) == {} && Within(rows, bound) == {};
    } else {
      var n := |rows| - 1;
      GapsCount(rows[..n], bound);
      LastWithin(rows, bound);
      if Later(rows, n) {
        UpToOneMore(Gaps(rows[..n]), Keyed(rows[n].ts - rows[n - 1].ts, n), bound);
      } else {
        assert Gaps(rows[..n]) + [] == Gaps(rows[..n]);
      }
    }
  }

  function GapThreshold(rows: seq<Row>): int {
    if Gaps(rows) == [] then MIN_GAP_BREAK_SECONDS
    else Max(MIN_GAP_BREAK_SECONDS, Sort(Gaps(rows))[|Gaps(rows)| / 2].key * GAP_BREAK_MULTIPLIER)
  }

  method GetGapBreakThreshold(rows: seq<Row>) returns (threshold: int)
    ensures threshold == GapThreshold(rows)
  {
    var deltas := [];
    var index := 1;
    while index < |rows|
      invariant 1 <= index && (|rows| > 0 ==> index <= |rows| && deltas == Gaps(rows[..index]))
      invariant |rows| == 0 ==> deltas == []
    {
      var delta := rows[index].ts - rows[index - 1].ts;
      assert rows[..index + 1][..index] == rows[..index];
      if delta > 0 {
        deltas := deltas + [Keyed(delta, index)];
      }
      index := index + 1;
    }
    assert |rows| > 0 ==> rows[..index] == rows;
    if |deltas| == 0 {
      return MIN_GAP_BREAK_SECONDS;
    }
    deltas := Sort(deltas);
    return Max(MIN_GAP_BREAK_SECONDS, deltas[|deltas| / 2].key * GAP_BREAK_MULTIPLIER);
  }

  /** The median of the distances: at most half of them are below it, and more than half up to it. */
  ghost predicate IsMedian(rows: seq<Row>, median: int) {
    |Within(rows, median - 1)| <= |LaterRows(rows)| / 2 < |Within(rows, median)|
  }

  /** The threshold is six times the median distance between rows that advance, and at least thirty seconds; thirty
      seconds where none does. */
  lemma {:induction false} ThresholdIsMedian(rows: seq<Row>) returns (median: int)
    ensures LaterRows(rows) == {} ==> GapThreshold(rows) == 30
    ensures LaterRows(rows) != {} ==> IsMedian(rows, median) && GapThreshold(rows) == Max(30, 6 * median)
    ensures LaterRows(rows) != {} ==> forall other :: IsMedian(rows, other) ==> other == median
  {
    median := 0;
    GapsCount(rows, 0);
    if Gaps(rows) != [] {
      median := Sort(Gaps(rows))[|Gaps(rows)| / 2].key;
      forall other
        ensures IsMedian(rows, other) <==> other == median
      {
        RankSelects(Gaps(rows), |Gaps(rows)| / 2, other);
        GapsCount(rows, other);
        GapsCount(rows, other - 1);
      }
    }
  }

  // ---------------------------------------------------------------- segments

  predicate Restarted(previous: Row, current: Row) {
    previous.uptime.Seconds? && current.uptime.Seconds?
    && previous.uptime.value > 0 && current.uptime.value > 0 && current.uptime.value < previous.uptime.value
  }

  predicate ShouldBreak(previous: Row, current: Row, threshold: int) {
    var delta := current.ts - previous.ts;
    delta <= 0 || delta > threshold || Restarted(previous, current)
  }

  /** Rows belong together exactly if time goes on, by no more than the threshold, and no shorter uptime shows a
      restart in between. */
  lemma {:induction false} TogetherExactly(previous: Row, current: Row, threshold: int)
    ensures !ShouldBreak(previous, current, threshold) <==>
      && previous.ts < current.ts <= previous.ts + threshold
      && (previous.uptime.Seconds? && current.uptime.Seconds? && current.uptime.value > 0 ==>
            current.uptime.value >= previous.uptime.value)
  {
  }

  function Flatten(segments: seq<seq<Row>>): seq<Row> {
    if segments == [] then [] else Flatten(segments[..|segments| - 1]) + segments[|segments| - 1]
  }

  predicate BreakBefore(rows: seq<Row>, k: nat, threshold: int)
    requires 0 < k < |rows|
  {
    ShouldBreak(rows[k - 1], rows[k], threshold)
  }

  predicate Unbroken(segment: seq<Row>, threshold: int) {
    segment != [] && forall k :: 0 < k < |segment| ==> !BreakBefore(segment, k, threshold)
  }

  predicate BreakBeforeSegment(segments: seq<seq<Row>>, i: nat, threshold: int)
    requires 0 < i < |segments|
  {
    && segments[i - 1] != [] && segments[i] != []
    && ShouldBreak(segments[i - 1][|segments[i - 1]| - 1], segments[i][0], threshold)
  }

  /** The rows in order, cut exactly where a break is due. */
  predicate IsSegmentation(rows: seq<Row>, segments: seq<seq<Row>>, threshold: int) {
    && Flatten(segments) == rows
    && (forall i :: 0 <= i < |segments| ==> Unbroken(segments[i], threshold))
    && (forall i :: 0 < i < |segments| ==> BreakBeforeSegment(segments, i, threshold))
  }

  lemma {:induction false} LastRow(rows: seq<Row>, segments: seq<seq<Row>>, threshold: int)
    requires IsSegmentation(rows, segments, threshold) && segments != []
    ensures var last := segments[|segments| - 1];
      Unbroken(last, threshold) && |last| <= |rows| && rows[|rows| - |last|..] == last
  {
  }

  lemma {:induction false} SegmentationOpens(rows: seq<Row>, segments: seq<seq<Row>>, row: Row, threshold: int)
    requires IsSegmentation(rows, segments, threshold) && segments != [] && rows != []
    requires ShouldBreak(rows[|rows| - 1], row, threshold)
    ensures IsSegmentation(rows + [row], segments + [[row]], threshold)
  {
    var n := |segments|;
    var after := segments + [[row]];
    LastRow(rows, segments, threshold);
    assert rows[|rows| - 1] == segments[n - 1][|segments[n - 1]| - 1];
    assert after[..n] == segments;
    forall i | 0 < i < |after|
      ensures BreakBeforeSegment(after, i, threshold)
    {
      assert i < n ==> BreakBeforeSegment(segments, i, threshold);
    }
  }

  lemma {:induction false} SegmentationGrows(rows: seq<Row>, segments: seq<seq<Row>>, row: Row, threshold: int)
    requires IsSegmentation(rows, segments, threshold) && segments != [] && rows != []
    requires !ShouldBreak(rows[|rows| - 1], row, threshold)
    ensures var n := |segments| - 1;
      IsSegmentation(rows + [row], segments[..n] + [segments[n] + [row]], threshold)
  {
    var n := |segments| - 1;
    var last, grown := segments[n], segments[n] + [row];
    var after := segments[..n] + [grown];
    LastRow(rows, segments, threshold);
    assert rows[|rows| - 1] == last[|last| - 1];
    assert after[..n] == segments[..n];
    forall k | 0 < k < |grown|
      ensures !BreakBefore(grown, k, threshold)
    {
      assert k < |last| ==> !BreakBefore(last, k, threshold);
    }
    forall i | 0 < i < |after|
      ensures BreakBeforeSegment(after, i, threshold)
    {
      assert BreakBeforeSegment(segments, i, threshold);
    }
  }

  lemma {:induction false} SegmentationPrefix(rows: seq<Row>, segments: seq<seq<Row>>, threshold: int)
    requires IsSegmentation(rows, segments, threshold) && segments != []
    ensures var n := |segments| - 1;
      |segments[n]| <= |rows| && IsSegmentation(rows[..|rows| - |segments[n]|], segments[..n], threshold)
  {
    var n := |segments| - 1;
    assert rows == Flatten(segments[..n]) + segments[n];
    forall i | 0 < i < n
      ensures BreakBeforeSegment(segments[..n], i, threshold)
    {
      assert BreakBeforeSegment(segments, i, threshold);
    }
  }

  method SplitMetricSegments(rows: seq<Row>) returns (segments: seq<seq<Row>>)
    ensures IsSegmentation(rows, segments, GapThreshold(rows))
  {
    if |rows| == 0 {
      return [];
    }
    var threshold := GetGapBreakThreshold(rows);
    segments := [];
    var current := [rows[0]];
    var index := 1;
    assert Flatten([current]) == Flatten([]) + current;
    while index < |rows|
      invariant 1 <= index <= |rows|
      invariant IsSegmentation(rows[..index], segments + [current], threshold)
    {
      ghost var open := segments + [current];
      assert Unbroken(open[|segments|], threshold);
      assert rows[..index + 1] == rows[..index] + [rows[index]];
      if ShouldBreak(rows[index - 1], rows[index], threshold) {
        SegmentationOpens(rows[..index], open, rows[index], threshold);
        segments := segments + [current];
        current := [rows[index]];
      } else {
        SegmentationGrows(rows[..index], open, rows[index], threshold);
        assert open[..|segments|] == segments;
        current := current + [rows[index]];
      }
      index := index + 1;
    }
    assert rows[..index] == rows;
    segments := segments + [current];
  }

  function Offset(segments: seq<seq<Row>>, i: nat): nat
    requires i <= |segments|
  {
    |Flatten(segments[..i])|
  }

  lemma {:induction false} OffsetNext(segments: seq<seq<Row>>, i: nat)
    requires i < |segments|
    ensures Offset(segments, i + 1) == Offset(segments, i) + |segments[i]|
  {
    assert segments[..i + 1][..i] == segments[..i];
  }

  lemma {:induction false} SegmentAt(segments: seq<seq<Row>>, i: nat, k: nat)
    requires i < |segments| && k < |segments[i]|
    ensures Offset(segments, i) + k < |Flatten(segments)|
    ensures Flatten(segments)[Offset(segments, i) + k] == segments[i][k]
  {
    var n := |segments| - 1;
    if i < n {
      SegmentAt(segments[..n], i, k);
      assert segments[..n][..i] == segments[..i];
    } else {
      assert segments[..i] == segments[..n];
    }
  }

  /** A row starts a segment exactly when it is the first row or a break is due before it. */
  lemma {:induction false} SegmentStarts(rows: seq<Row>, segments: seq<seq<Row>>, threshold: int, i: nat, k: nat)
    requires IsSegmentation(rows, segments, threshold) && i < |segments| && k < |segments[i]|
    ensures var at := Offset(segments, i) + k;
      at < |rows| && rows[at] == segments[i][k]
      && (at == 0 ==> k == 0) && (at > 0 ==> (k == 0 <==> BreakBefore(rows, at, threshold)))
  {
    SegmentAt(segments, i, k);
    assert Unbroken(segments[i], threshold);
    if k > 0 {
      assert !BreakBefore(segments[i], k, threshold);
      SegmentAt(segments, i, k - 1);
    } else if i > 0 {
      OffsetNext(segments, i - 1);
      assert BreakBeforeSegment(segments, i, threshold) && Unbroken(segments[i - 1], threshold);
      SegmentAt(segments, i - 1, |segments[i - 1]| - 1);
    }
  }

  /** The break rule leaves no choice: two segmentations of the same rows are the same. */
  lemma {:induction false} SegmentationUnique(rows: seq<Row>, a: seq<seq<Row>>, b: seq<seq<Row>>, threshold: int)
    requires IsSegmentation(rows, a, threshold) && IsSegmentation(rows, b, threshold)
    ensures a == b
    decreases |a|
  {
    EmptyExactly(rows, a, threshold);
    EmptyExactly(rows, b, threshold);
    if a != [] {
      var m := |a| - 1;
      assert Unbroken(a[m], threshold);
      var n := |b| - 1;
      LastSegmentsEqual(rows, a, b, threshold);
      SegmentationPrefix(rows, a, threshold);
      SegmentationPrefix(rows, b, threshold);
      SegmentationUnique(rows[..|rows| - |a[m]|], a[..m], b[..n], threshold);
      assert a == a[..m] + [a[m]] && b == b[..n] + [b[n]];
    }
  }

  lemma {:induction false} EmptyExactly(rows: seq<Row>, segments: seq<seq<Row>>, threshold: int)
    requires IsSegmentation(rows, segments, threshold)
    ensures rows == [] <==> segments == []
  {
    if segments != [] {
      assert Unbroken(segments[|segments| - 1], threshold);
    }
  }

  lemma {:induction false} SuffixLength(rows: seq<Row>, x: seq<Row>, y: seq<Row>, threshold: int)
    requires |x| <= |rows| && |y| <= |rows| && rows[|rows| - |y|..] == y && Unbroken(y, threshold)
    requires 0 < |x| < |rows| ==> BreakBefore(rows, |rows| - |x|, threshold)
    requires x != []
    ensures |y| <= |x|
  {
    var from := |rows| - |y|;
    forall m | from < m < |rows|
      ensures !BreakBefore(rows, m, threshold)
    {
      assert !BreakBefore(y, m - from, threshold);
    }
  }

  lemma {:induction false} LastSegmentsEqual(rows: seq<Row>, a: seq<seq<Row>>, b: seq<seq<Row>>, threshold: int)
    requires IsSegmentation(rows, a, threshold) && IsSegmentation(rows, b, threshold) && a != [] && b != []
    ensures a[|a| - 1] == b[|b| - 1]
  {
    var x, y := a[|a| - 1], b[|b| - 1];
    assert Unbroken(x, threshold) && Unbroken(y, threshold);
    LastStart(rows, a, threshold);
    LastStart(rows, b, threshold);
    SuffixLength(rows, x, y, threshold);
    SuffixLength(rows, y, x, threshold);
  }

  lemma {:induction false} LastStart(rows: seq<Row>, segments: seq<seq<Row>>, threshold: int)
    requires IsSegmentation(rows, segments, threshold) && segments != []
    ensures var last := segments[|segments| - 1];
      0 < |last| <= |rows| && rows[|rows| - |last|..] == last
      && (|last| < |rows| ==> BreakBefore(rows, |rows| - |last|, threshold))
  {
    var n := |segments| - 1;
    assert Unbroken(segments[n], threshold);
    SegmentStarts(rows, segments, threshold, n, 0);
  }

  // ---------------------------------------------------------------- deltas

  /** Two neighbouring rows between which the counter counts: no break, and no counter reset. */
  predicate Linked(rows: seq<Row>, threshold: int, k: nat)
    requires 0 < k < |rows|
  {
    !BreakBefore(rows, k, threshold) && rows[k].value >= rows[k - 1].value
  }

  /** What the counter has gained from the first row up to row k. */
  function RunningTotal(rows: seq<Row>, threshold: int, k: nat): real
    requires k < |rows|
  {
    if k == 0 then 0.0
    else RunningTotal(rows, threshold, k - 1)
         + if Linked(rows, threshold, k) then rows[k].value - rows[k - 1].value else 0.0
  }

  ghost predicate AnyGain(rows: seq<Row>, threshold: int, n: nat)
    requires n <= |rows|
  {
    exists k :: 0 < k < n && Linked(rows, threshold, k)
  }

  ghost function RangeDelta(rows: seq<Row>): Option<real> {
    var threshold := GapThreshold(rows);
    if AnyGain(rows, threshold, |rows|) then Some(RunningTotal(rows, threshold, |rows| - 1)) else None
  }

  lemma {:induction false} AnyGainStep(rows: seq<Row>, threshold: int, k: nat)
    requires k < |rows|
    ensures AnyGain(rows, threshold, k + 1) <==> AnyGain(rows, threshold, k) || (k > 0 && Linked(rows, threshold, k))
  {
  }

  /** A segment in its place among the rows. */
  ghost predicate Placed(rows: seq<Row>, segment: seq<Row>, at: nat, threshold: int) {
    && at + |segment| <= |rows| && rows[at..at + |segment|] == segment && Unbroken(segment, threshold)
    && (at > 0 ==> BreakBefore(rows, at, threshold))
  }

  lemma {:induction false} SegmentPlaced(rows: seq<Row>, segments: seq<seq<Row>>, threshold: int, i: nat)
    requires IsSegmentation(rows, segments, threshold) && i < |segments|
    ensures Placed(rows, segments[i], Offset(segments, i), threshold)
  {
    var segment, at := segments[i], Offset(segments, i);
    assert Unbroken(segment, threshold);
    forall k | 0 <= k < |segment|
      ensures at + k < |rows| && rows[at + k] == segment[k]
    {
      SegmentStarts(rows, segments, threshold, i, k);
    }
    SegmentStarts(rows, segments, threshold, i, |segment| - 1);
    SegmentStarts(rows, segments, threshold, i, 0);
  }

  lemma {:induction false} PlacedStart(rows: seq<Row>, segment: seq<Row>, at: nat, threshold: int)
    requires Placed(rows, segment, at, threshold)
    ensures rows[at] == segment[0] && (at > 0 ==> !Linked(rows, threshold, at))
  {
    assert rows[at] == rows[at..at + |segment|][0];
  }

  lemma {:induction false} PlacedInside(rows: seq<Row>, segment: seq<Row>, at: nat, threshold: int, index: nat)
    requires Placed(rows, segment, at, threshold) && 0 < index < |segment|
    ensures rows[at + index] == segment[index] && rows[at + index - 1] == segment[index - 1]
    ensures segment[index].ts > segment[index - 1].ts
    ensures Linked(rows, threshold, at + index) <==> segment[index].value >= segment[index - 1].value
  {
    assert rows[at + index] == rows[at..at + |segment|][index];
    assert rows[at + index - 1] == rows[at..at + |segment|][index - 1];
    assert !BreakBefore(segment, index, threshold);
  }

  /** Row by row: the chart segments closed so far, the open one, the total, and whether anything was gained. */
  datatype Tally = Tally(closed: seq<seq<SeriesPoint>>, points: seq<SeriesPoint>, total: real, gained: bool)

  function Closed(tally: Tally): seq<seq<SeriesPoint>> {
    if |tally.points| > 1 then tally.closed + [tally.points] else tally.closed
  }

  function Tallied(rows: seq<Row>, threshold: int, n: nat): Tally
    requires n <= |rows|
  {
    if n == 0 then Tally([], [], 0.0, false)
    else
      var before, current := Tallied(rows, threshold, n - 1), rows[n - 1];
      if n > 1 && Linked(rows, threshold, n - 1) then
        var total := before.total + (current.value - rows[n - 2].value);
        Tally(before.closed, before.points + [SeriesPoint(current.ts, total)], total, true)
      else
        Tally(Closed(before), [SeriesPoint(current.ts, before.total)], before.total, before.gained)
  }

  /** The inner loop of the range delta: one segment of the rows. */
  method AddSegment(segment: seq<Row>, total: real, hasDelta: bool, ghost rows: seq<Row>, ghost at: nat,
                    ghost threshold: int)
    returns (total': real, hasDelta': bool)
    requires Placed(rows, segment, at, threshold)
    requires total == Tallied(rows, threshold, at).total && hasDelta == Tallied(rows, threshold, at).gained
    ensures total' == Tallied(rows, threshold, at + |segment|).total
    ensures hasDelta' == Tallied(rows, threshold, at + |segment|).gained
  {
    PlacedStart(rows, segment, at, threshold);
    total', hasDelta' := total, hasDelta;
    var index := 1;
    while index < |segment|
      invariant 1 <= index <= |segment|
      invariant total' == Tallied(rows, threshold, at + index).total
      invariant hasDelta' == Tallied(rows, threshold, at + index).gained
    {
      PlacedInside(rows, segment, at, threshold, index);
      var deltaTs := segment[index].ts - segment[index - 1].ts;
      var deltaValue := segment[index].value - segment[index - 1].value;
      if !(deltaTs <= 0 || deltaValue < 0.0) {
        total', hasDelta' := total' + deltaValue, true;
      }
      index := index + 1;
    }
  }

  method GetMetricRangeDelta(rows: seq<Row>) returns (delta: Option<real>)
    ensures delta == RangeDelta(rows)
  {
    var segments := SplitMetricSegments(rows);
    ghost var threshold := GapThreshold(rows);
    var total, hasDelta := 0.0, false;
    var i := 0;
    while i < |segments|
      invariant 0 <= i <= |segments| && Offset(segments, i) <= |rows|
      invariant total == Tallied(rows, threshold, Offset(segments, i)).total
      invariant hasDelta == Tallied(rows, threshold, Offset(segments, i)).gained
    {
      OffsetNext(segments, i);
      SegmentPlaced(rows, segments, threshold, i);
      total, hasDelta := AddSegment(segments[i], total, hasDelta, rows, Offset(segments, i), threshold);
      i := i + 1;
    }
    assert segments[..i] == segments;
    TallyShows(rows);
    return if hasDelta then Some(total) else None;
  }

  lemma {:induction false} TallyShows(rows: seq<Row>)
    ensures var tally := Tallied(rows, GapThreshold(rows), |rows|);
      RangeDelta(rows) == if tally.gained then Some(tally.total) else None
  {
    TallyCounts(rows, GapThreshold(rows), |rows|);
  }

  /** The tally's total is the running total, and something was gained if some pair of rows is linked. */
  lemma {:induction false} TallyCounts(rows: seq<Row>, threshold: int, n: nat)
    requires n <= |rows|
    ensures Tallied(rows, threshold, n).gained <==> AnyGain(rows, threshold, n)
    ensures n > 0 ==> Tallied(rows, threshold, n).total == RunningTotal(rows, threshold, n - 1)
    ensures n == 0 ==> Tallied(rows, threshold, n).total == 0.0
  {
    if n > 0 {
      TallyCounts(rows, threshold, n - 1);
      AnyGainStep(rows, threshold, n - 1);
    }
  }

  lemma {:induction false} RunningTotalGrows(rows: seq<Row>, threshold: int, j: nat, k: nat)
    requires j <= k < |rows|
    ensures RunningTotal(rows, threshold, j) <= RunningTotal(rows, threshold, k)
  {
    if j < k {
      RunningTotalGrows(rows, threshold, j, k - 1);
    }
  }

  // ---------------------------------------------------------------- the delta chart

  /** A stretch [from, until) of rows, each linked to the one before. */
  datatype Stretch = Stretch(from: nat, until: nat)

  /** The longest stretches of at least two rows among the first n rows. */
  function Stretches(rows: seq<Row>, threshold: int, n: nat): (r: seq<Stretch>)
    requires n <= |rows|
    ensures forall i :: 0 <= i < |r| ==> r[i].from + 1 < r[i].until <= n
  {
    if n < 2 then []
    else
      var before := Stretches(rows, threshold, n - 1);
      if !Linked(rows, threshold, n - 1) then before
      else if before != [] && before[|before| - 1].until == n - 1 then
        before[..|before| - 1] + [Stretch(before[|before| - 1].from, n)]
      else before + [Stretch(n - 2, n)]
  }

  /** What the counter gained within the stretches, each from its first to its last row. */
  function Gains(rows: seq<Row>, stretches: seq<Stretch>): real
    requires forall i :: 0 <= i < |stretches| ==> stretches[i].from + 1 < stretches[i].until <= |rows|
  {
    if stretches == [] then 0.0
    else
      var n := |stretches| - 1;
      Gains(rows, stretches[..n]) + (rows[stretches[n].until - 1].value - rows[stretches[n].from].value)
  }

  lemma {:induction false} GainsLast(rows: seq<Row>, front: seq<Stretch>, last: Stretch)
    requires InRows(rows, front) && last.from + 1 < last.until <= |rows|
    ensures Gains(rows, front + [last]) == Gains(rows, front) + (rows[last.until - 1].value - rows[last.from].value)
  {
    assert (front + [last])[..|front|] == front;
  }

  predicate InRows(rows: seq<Row>, stretches: seq<Stretch>) {
    forall i :: 0 <= i < |stretches| ==> stretches[i].from + 1 < stretches[i].until <= |rows|
  }

  /** A linked row continues the last stretch or starts a new one. */
  lemma {:induction false} StretchGrows(rows: seq<Row>, threshold: int, n: nat) returns (front: seq<Stretch>, from: nat)
    requires 2 <= n <= |rows| && Linked(rows, threshold, n - 1)
    ensures InRows(rows, front) && from + 2 <= n && Stretches(rows, threshold, n) == front + [Stretch(from, n)]
    ensures Stretches(rows, threshold, n - 1) == if from + 2 < n then front + [Stretch(from, n - 1)] else front
  {
    var before := Stretches(rows, threshold, n - 1);
    if before != [] && before[|before| - 1].until == n - 1 {
      front, from := before[..|before| - 1], before[|before| - 1].from;
      assert before == front + [before[|before| - 1]];
    } else {
      front, from := before, n - 2;
    }
  }

  /** So it adds its difference to the gain of the last stretch. */
  lemma {:induction false} LastStretchGains(rows: seq<Row>, threshold: int, n: nat)
    requires 2 <= n <= |rows| && Linked(rows, threshold, n - 1)
    ensures Gains(rows, Stretches(rows, threshold, n)) ==
      Gains(rows, Stretches(rows, threshold, n - 1)) + (rows[n - 1].value - rows[n - 2].value)
  {
    var front, from := StretchGrows(rows, threshold, n);
    GainsLast(rows, front, Stretch(from, n));
    if from + 2 < n {
      GainsLast(rows, front, Stretch(from, n - 1));
    }
  }

  /** The total adds up what the counter gained within the longest stretches in which it only rises. */
  lemma {:induction false} TotalIsGains(rows: seq<Row>, threshold: int, n: nat)
    requires 0 < n <= |rows|
    ensures RunningTotal(rows, threshold, n - 1) == Gains(rows, Stretches(rows, threshold, n))
  {
    if n >= 2 {
      TotalIsGains(rows, threshold, n - 1);
      if Linked(rows, threshold, n - 1) {
        LastStretchGains(rows, threshold, n);
      }
    }
  }

  /** Within a stretch of linked rows the total gains what the counter gained, and at any other row nothing. */
  lemma {:induction false} TotalTelescopes(rows: seq<Row>, threshold: int, j: nat, k: nat)
    requires j <= k < |rows| && forall i :: j < i <= k ==> Linked(rows, threshold, i)
    ensures RunningTotal(rows, threshold, k) - RunningTotal(rows, threshold, j) == rows[k].value - rows[j].value
    ensures k + 1 < |rows| && !Linked(rows, threshold, k + 1) ==>
      RunningTotal(rows, threshold, k + 1) == RunningTotal(rows, threshold, k)
    decreases k - j
  {
    if j < k {
      TotalTelescopes(rows, threshold, j, k - 1);
    }
  }

  predicate EndsBefore(stretches: seq<Stretch>, i: nat)
    requires 0 < i < |stretches|
  {
    stretches[i - 1].until <= stretches[i].from
  }

  predicate Apart(stretches: seq<Stretch>) {
    forall i :: 0 < i < |stretches| ==> EndsBefore(stretches, i)
  }

  /** The stretches are the longest there are: a pair of neighbouring rows is linked exactly if one of them
      covers it, and no two of them share a row. */
  lemma {:induction false} StretchesCover(rows: seq<Row>, threshold: int, n: nat)
    requires n <= |rows|
    ensures Apart(Stretches(rows, threshold, n))
    ensures forall k :: 0 < k < n ==>
      (Linked(rows, threshold, k) <==> Covered(Stretches(rows, threshold, n), k))
  {
    if n >= 2 {
      StretchesCover(rows, threshold, n - 1);
      var before, after := Stretches(rows, threshold, n - 1), Stretches(rows, threshold, n);
      NotCovered(before, n - 1);
      if Linked(rows, threshold, n - 1) {
        if before != [] && before[|before| - 1].until == n - 1 {
          CoverExtended(before, after, n - 1);
        } else {
          CoverAdded(before, after, n - 1);
        }
      }
    }
  }

  ghost predicate Covered(stretches: seq<Stretch>, k: nat) {
    exists i :: 0 <= i < |stretches| && stretches[i].from < k < stretches[i].until
  }

  lemma {:induction false} CoverExtended(before: seq<Stretch>, after: seq<Stretch>, n: nat)
    requires before != [] && before[|before| - 1].from + 1 < before[|before| - 1].until == n
    requires after == before[..|before| - 1] + [Stretch(before[|before| - 1].from, n + 1)]
    ensures forall k: nat :: Covered(after, k) <==> Covered(before, k) || k == n
    ensures Apart(before) ==> Apart(after)
  {
    forall k: nat
      ensures Covered(after, k) <==> Covered(before, k) || k == n
    {
      if Covered(before, k) {
        var i :| 0 <= i < |before| && before[i].from < k < before[i].until;
        assert after[i].from < k < after[i].until;
      }
      if k == n {
        assert after[|after| - 1].from < k < after[|after| - 1].until;
      } else if Covered(after, k) {
        var i :| 0 <= i < |after| && after[i].from < k < after[i].until;
        assert before[i].from < k < before[i].until;
      }
    }
    if Apart(before) {
      forall i | 0 < i < |after|
        ensures EndsBefore(after, i)
      {
        assert i < |before| ==> EndsBefore(before, i);
      }
    }
  }

  lemma {:induction false} CoverAdded(before: seq<Stretch>, after: seq<Stretch>, n: nat)
    requires 0 < n && after == before + [Stretch(n - 1, n + 1)]
    requires before != [] ==> before[|before| - 1].until < n
    ensures forall k: nat :: Covered(after, k) <==> Covered(before, k) || k == n
    ensures Apart(before) ==> Apart(after)
  {
    forall k: nat
      ensures Covered(after, k) <==> Covered(before, k) || k == n
    {
      if Covered(before, k) {
        var i :| 0 <= i < |before| && before[i].from < k < before[i].until;
        assert after[i].from < k < after[i].until;
      }
      if k == n {
        assert after[|after| - 1].from < k < after[|after| - 1].until;
      } else if Covered(after, k) {
        var i :| 0 <= i < |after| && after[i].from < k < after[i].until;
        assert before[i].from < k < before[i].until;
      }
    }
    if Apart(before) {
      forall i | 0 < i < |after|
        ensures EndsBefore(after, i)
      {
        assert i < |before| ==> EndsBefore(before, i);
      }
    }
  }

  lemma {:induction false} NotCovered(stretches: seq<Stretch>, n: nat)
    requires forall i :: 0 <= i < |stretches| ==> stretches[i].until <= n
    ensures !Covered(stretches, n)
  {
  }

  lemma {:induction false} ApartPrefix(stretches: seq<Stretch>)
    requires Apart(stretches) && stretches != []
    ensures Apart(stretches[..|stretches| - 1])
    ensures |stretches| > 1 ==> stretches[|stretches| - 2].until <= stretches[|stretches| - 1].from
  {
    var n := |stretches| - 1;
    forall i | 0 < i < n
      ensures EndsBefore(stretches[..n], i)
    {
      assert EndsBefore(stretches, i);
    }
    assert |stretches| > 1 ==> EndsBefore(stretches, |stretches| - 1);
  }

  /** The running total over the rows from..until. */
  function Curve(rows: seq<Row>, threshold: int, from: nat, until: nat): (r: seq<SeriesPoint>)
    requires from <= until <= |rows|
    ensures |r| == until - from
    ensures forall k :: 0 <= k < |r| ==>
      r[k] == SeriesPoint(rows[from + k].ts, RunningTotal(rows, threshold, from + k))
  {
    if from == until then []
    else Curve(rows, threshold, from, until - 1)
         + [SeriesPoint(rows[until - 1].ts, RunningTotal(rows, threshold, until - 1))]
  }

  function Curves(rows: seq<Row>, threshold: int, stretches: seq<Stretch>): (r: seq<seq<SeriesPoint>>)
    requires forall i :: 0 <= i < |stretches| ==> stretches[i].from + 1 < stretches[i].until <= |rows|
    ensures |r| == |stretches|
    ensures forall i :: 0 <= i < |r| ==> r[i] == Curve(rows, threshold, stretches[i].from, stretches[i].until)
  {
    if stretches == [] then []
    else
      var n := |stretches| - 1;
      Curves(rows, threshold, stretches[..n]) + [Curve(rows, threshold, stretches[n].from, stretches[n].until)]
  }

  function DeltaSegments(rows: seq<Row>): seq<seq<SeriesPoint>> {
    Curves(rows, GapThreshold(rows), Stretches(rows, GapThreshold(rows), |rows|))
  }

  /** The closed chart segments and the open one are the curves over the longest stretches. */
  ghost predicate Drawn(rows: seq<Row>, threshold: int, n: nat, tally: Tally) {
    && 0 < |tally.points| <= n <= |rows|
    && tally.points == Curve(rows, threshold, n - |tally.points|, n)
    && var stretches := Stretches(rows, threshold, n);
      if |tally.points| == 1 then
        tally.closed == Curves(rows, threshold, stretches) && (stretches != [] ==> stretches[|stretches| - 1].until < n)
      else
        stretches != [] && stretches[|stretches| - 1] == Stretch(n - |tally.points|, n)
        && tally.closed == Curves(rows, threshold, stretches[..|stretches| - 1])
  }

  lemma {:induction false} StretchesExtend(rows: seq<Row>, threshold: int, n: nat, from: nat)
    requires from < n < |rows| && Linked(rows, threshold, n)
    requires var stretches := Stretches(rows, threshold, n);
      if from == n - 1 then stretches != [] ==> stretches[|stretches| - 1].until < n
      else stretches != [] && stretches[|stretches| - 1] == Stretch(from, n)
    ensures var before, after := Stretches(rows, threshold, n), Stretches(rows, threshold, n + 1);
      after != [] && after[|after| - 1] == Stretch(from, n + 1)
      && after[..|after| - 1] == if from == n - 1 then before else before[..|before| - 1]
  {
  }

  lemma {:induction false} DrawnExtends(rows: seq<Row>, threshold: int, n: nat, tally: Tally, extended: Tally)
    requires Drawn(rows, threshold, n, tally) && n < |rows| && Linked(rows, threshold, n)
    requires extended.closed == tally.closed
    requires extended.points == tally.points + [SeriesPoint(rows[n].ts, RunningTotal(rows, threshold, n))]
    ensures Drawn(rows, threshold, n + 1, extended)
  {
    StretchesExtend(rows, threshold, n, n - |tally.points|);
  }

  lemma {:induction false} DrawnCloses(rows: seq<Row>, threshold: int, n: nat, tally: Tally)
    requires Drawn(rows, threshold, n, tally)
    ensures Closed(tally) == Curves(rows, threshold, Stretches(rows, threshold, n))
  {
  }

  /** After a row that does not link to the one before, a new open segment starts with that row. */
  lemma {:induction false} DrawnStarts(rows: seq<Row>, threshold: int, n: nat, started: Tally)
    requires n < |rows| && (n > 0 ==> !Linked(rows, threshold, n))
    requires started.closed == Curves(rows, threshold, Stretches(rows, threshold, n))
    requires started.points == [SeriesPoint(rows[n].ts, RunningTotal(rows, threshold, n))]
    ensures Drawn(rows, threshold, n + 1, started)
  {
    assert Curve(rows, threshold, n, n) == [];
  }

  lemma {:induction false} TallyBegins(rows: seq<Row>, threshold: int)
    requires rows != []
    ensures Drawn(rows, threshold, 1, Tallied(rows, threshold, 1))
  {
    assert Tallied(rows, threshold, 0) == Tally([], [], 0.0, false);
    assert Tallied(rows, threshold, 1) == Tally([], [SeriesPoint(rows[0].ts, 0.0)], 0.0, false);
    DrawnStarts(rows, threshold, 0, Tally([], [SeriesPoint(rows[0].ts, 0.0)], 0.0, false));
  }

  lemma {:induction false} TallyLinked(rows: seq<Row>, threshold: int, n: nat)
    requires 1 < n <= |rows| && Linked(rows, threshold, n - 1)
    ensures var before, after := Tallied(rows, threshold, n - 1), Tallied(rows, threshold, n);
      after.closed == before.closed
      && after.points == before.points + [SeriesPoint(rows[n - 1].ts, RunningTotal(rows, threshold, n - 1))]
  {
    TallyCounts(rows, threshold, n);
  }

  lemma {:induction false} TallyExtends(rows: seq<Row>, threshold: int, n: nat)
    requires 1 < n <= |rows| && Linked(rows, threshold, n - 1)
    requires Drawn(rows, threshold, n - 1, Tallied(rows, threshold, n - 1))
    ensures Drawn(rows, threshold, n, Tallied(rows, threshold, n))
  {
    TallyLinked(rows, threshold, n);
    DrawnExtends(rows, threshold, n - 1, Tallied(rows, threshold, n - 1), Tallied(rows, threshold, n));
  }

  lemma {:induction false} TallyRestarts(rows: seq<Row>, threshold: int, n: nat)
    requires 1 < n <= |rows| && !Linked(rows, threshold, n - 1)
    requires Drawn(rows, threshold, n - 1, Tallied(rows, threshold, n - 1))
    ensures Drawn(rows, threshold, n, Tallied(rows, threshold, n))
  {
    TallyCounts(rows, threshold, n - 1);
    DrawnCloses(rows, threshold, n - 1, Tallied(rows, threshold, n - 1));
    DrawnStarts(rows, threshold, n - 1, Tallied(rows, threshold, n));
  }

  lemma {:induction false} TallyDraws(rows: seq<Row>, threshold: int, n: nat)
    requires 0 < n <= |rows|
    ensures Drawn(rows, threshold, n, Tallied(rows, threshold, n))
  {
    if n == 1 {
      TallyBegins(rows, threshold);
    } else {
      TallyDraws(rows, threshold, n - 1);
      if Linked(rows, threshold, n - 1) {
        TallyExtends(rows, threshold, n);
      } else {
        TallyRestarts(rows, threshold, n);
      }
    }
  }

  /** The chart segments are the curves over the longest stretches in which the counter only rises. */
  lemma {:induction false} TallySegments(rows: seq<Row>)
    ensures Closed(Tallied(rows, GapThreshold(rows), |rows|)) == DeltaSegments(rows)
    ensures Tallied(rows, GapThreshold(rows), |rows|).gained <==> AnyGain(rows, GapThreshold(rows), |rows|)
  {
    TallyCounts(rows, GapThreshold(rows), |rows|);
    if rows != [] {
      TallyDraws(rows, GapThreshold(rows), |rows|);
      DrawnCloses(rows, GapThreshold(rows), |rows|, Tallied(rows, GapThreshold(rows), |rows|));
    }
  }

  /** The inner loop of the delta chart: one segment of the rows. */
  method TallySegment(segment: seq<Row>, before: Tally, ghost rows: seq<Row>, ghost at: nat, ghost threshold: int)
    returns (after: Tally)
    requires Placed(rows, segment, at, threshold) && 2 <= |segment|
    requires before.points == [] && before.closed == Closed(Tallied(rows, threshold, at))
    requires before.total == Tallied(rows, threshold, at).total && before.gained == Tallied(rows, threshold, at).gained
    ensures after == Tallied(rows, threshold, at + |segment|)
  {
    PlacedStart(rows, segment, at, threshold);
    after := before.(points := [SeriesPoint(segment[0].ts, before.total)]);
    var index := 1;
    while index < |segment|
      invariant 1 <= index <= |segment|
      invariant after == Tallied(rows, threshold, at + index)
    {
      PlacedInside(rows, segment, at, threshold, index);
      var current := segment[index];
      var deltaTs := current.ts - segment[index - 1].ts;
      var deltaValue := current.value - segment[index - 1].value;
      if deltaTs <= 0 || deltaValue < 0.0 {
        var closed := after.closed;
        if |after.points| > 1 {
          closed := closed + [after.points];
        }
        after := after.(closed := closed, points := [SeriesPoint(current.ts, after.total)]);
      } else {
        var total := after.total + deltaValue;
        after := Tally(after.closed, after.points + [SeriesPoint(current.ts, total)], total, true);
      }
      index := index + 1;
    }
  }

  /** The body of the outer loop: a segment of one row draws nothing. */
  method DrawSegment(segment: seq<Row>, closed: seq<seq<SeriesPoint>>, total: real, hasDelta: bool,
                     ghost rows: seq<Row>, ghost at: nat, ghost threshold: int)
    returns (closed': seq<seq<SeriesPoint>>, total': real, hasDelta': bool)
    requires Placed(rows, segment, at, threshold)
    requires closed == Closed(Tallied(rows, threshold, at))
    requires total == Tallied(rows, threshold, at).total && hasDelta == Tallied(rows, threshold, at).gained
    ensures closed' == Closed(Tallied(rows, threshold, at + |segment|))
    ensures total' == Tallied(rows, threshold, at + |segment|).total
    ensures hasDelta' == Tallied(rows, threshold, at + |segment|).gained
  {
    if |segment| < 2 {
      PlacedStart(rows, segment, at, threshold);
      return closed, total, hasDelta;
    }
    var tally := TallySegment(segment, Tally(closed, [], total, hasDelta), rows, at, threshold);
    closed' := if |tally.points| > 1 then tally.closed + [tally.points] else tally.closed;
    return closed', tally.total, tally.gained;
  }

  method DeltaChartSegments(rows: seq<Row>) returns (closed: seq<seq<SeriesPoint>>, hasDelta: bool)
    ensures closed == DeltaSegments(rows)
    ensures hasDelta <==> AnyGain(rows, GapThreshold(rows), |rows|)
  {
    var segments := SplitMetricSegments(rows);
    ghost var threshold := GapThreshold(rows);
    var total := 0.0;
    closed, hasDelta := [], false;
    var i := 0;
    while i < |segments|
      invariant 0 <= i <= |segments| && Offset(segments, i) <= |rows|
      invariant closed == Closed(Tallied(rows, threshold, Offset(segments, i)))
      invariant total == Tallied(rows, threshold, Offset(segments, i)).total
      invariant hasDelta == Tallied(rows, threshold, Offset(segments, i)).gained
    {
      OffsetNext(segments, i);
      SegmentPlaced(rows, segments, threshold, i);
      closed, total, hasDelta :=
        DrawSegment(segments[i], closed, total, hasDelta, rows, Offset(segments, i), threshold);
      i := i + 1;
    }
    assert segments[..i] == segments;
    TallySegments(rows);
  }

  ghost function DeltaChart(rows: seq<Row>, target: int): seq<ChartPoint> {
    if AnyGain(rows, GapThreshold(rows), |rows|) then
      Merged(DeltaSegments(rows), target, Last)
    else []
  }

  method BuildMetricDeltaChartSeries(rows: seq<Row>, rangeSeconds: int) returns (chart: seq<ChartPoint>)
    ensures chart == DeltaChart(rows, GetChartPointBudget(rangeSeconds))
  {
    var closed, hasDelta := DeltaChartSegments(rows);
    if !hasDelta {
      return [];
    }
    chart := MergeSegmentedSeries(closed, GetChartPointBudget(rangeSeconds), Last);
  }

  // ---------------------------------------------------------------- the two computations agree

  lemma {:induction false} AllKept(segments: seq<seq<SeriesPoint>>)
    requires forall i :: 0 <= i < |segments| ==> segments[i] != []
    ensures NonEmpty(segments) == segments
  {
    if segments != [] {
      var n := |segments| - 1;
      AllKept(segments[..n]);
      assert segments == segments[..n] + [segments[n]];
    }
  }

  lemma {:induction false} StretchIfGain(rows: seq<Row>, threshold: int, n: nat)
    requires 0 < n <= |rows|
    ensures Stretches(rows, threshold, n) != [] <==> AnyGain(rows, threshold, n)
  {
    if n > 1 {
      StretchIfGain(rows, threshold, n - 1);
      AnyGainStep(rows, threshold, n - 1);
    }
  }

  /** Nothing is gained after the last stretch. */
  lemma {:induction false} LastTotal(rows: seq<Row>, threshold: int, n: nat)
    requires 0 < n <= |rows| && Stretches(rows, threshold, n) != []
    ensures var stretches := Stretches(rows, threshold, n);
      RunningTotal(rows, threshold, stretches[|stretches| - 1].until - 1) == RunningTotal(rows, threshold, n - 1)
  {
    if Linked(rows, threshold, n - 1) {
      var stretches := Stretches(rows, threshold, n);
      assert stretches[|stretches| - 1].until == n;
    } else {
      assert Stretches(rows, threshold, n) == Stretches(rows, threshold, n - 1);
      LastTotal(rows, threshold, n - 1);
    }
  }

  ghost predicate Shows(chart: seq<ChartPoint>, value: real) {
    chart != [] && chart[|chart| - 1].Reading? && chart[|chart| - 1].value == value
  }

  lemma {:induction false} LastReading(chart: seq<ChartPoint>, segment: seq<SeriesPoint>)
    requires segment != [] && EndsAt(chart, segment, Last)
    ensures Shows(chart, segment[|segment| - 1].value)
  {
  }

  ghost predicate EndsWith(segments: seq<seq<SeriesPoint>>, value: real) {
    && segments != [] && (forall i :: 0 <= i < |segments| ==> segments[i] != [])
    && segments[|segments| - 1][|segments[|segments| - 1]| - 1].value == value
  }

  lemma {:induction false} MergedShows(segments: seq<seq<SeriesPoint>>, target: int, value: real)
    requires EndsWith(segments, value)
    ensures Shows(Merged(segments, target, Last), value)
  {
    AllKept(segments);
    ChartEnds(segments, target, Last);
    LastReading(Merged(segments, target, Last), segments[|segments| - 1]);
  }

  lemma {:induction false} CurvesLast(rows: seq<Row>, threshold: int, stretches: seq<Stretch>, value: real)
    requires forall i :: 0 <= i < |stretches| ==> stretches[i].from + 1 < stretches[i].until <= |rows|
    requires stretches != [] && value == RunningTotal(rows, threshold, stretches[|stretches| - 1].until - 1)
    ensures EndsWith(Curves(rows, threshold, stretches), value)
  {
    var segments, last := Curves(rows, threshold, stretches), stretches[|stretches| - 1];
    var end := segments[|segments| - 1];
    assert end == Curve(rows, threshold, last.from, last.until);
    assert end[|end| - 1].value == RunningTotal(rows, threshold, last.until - 1);
  }

  lemma {:induction false} CurvesEnd(rows: seq<Row>, threshold: int)
    requires AnyGain(rows, threshold, |rows|)
    ensures EndsWith(Curves(rows, threshold, Stretches(rows, threshold, |rows|)),
                     RunningTotal(rows, threshold, |rows| - 1))
  {
    StretchIfGain(rows, threshold, |rows|);
    LastTotal(rows, threshold, |rows|);
    CurvesLast(rows, threshold, Stretches(rows, threshold, |rows|), RunningTotal(rows, threshold, |rows| - 1));
  }

  lemma {:induction false} ChartOfGain(rows: seq<Row>, target: int)
    requires AnyGain(rows, GapThreshold(rows), |rows|)
    ensures Shows(Merged(DeltaSegments(rows), target, Last), RunningTotal(rows, GapThreshold(rows), |rows| - 1))
  {
    CurvesEnd(rows, GapThreshold(rows));
    MergedShows(DeltaSegments(rows), target, RunningTotal(rows, GapThreshold(rows), |rows| - 1));
  }

  /** The chart is empty exactly when the range has no delta, and otherwise its last point shows that delta. */
  lemma {:induction false} ChartShowsDelta(rows: seq<Row>, target: int)
    ensures DeltaChart(rows, target) == [] <==> RangeDelta(rows) == None
    ensures RangeDelta(rows).Some? ==> Shows(DeltaChart(rows, target), RangeDelta(rows).value)
  {
    if AnyGain(rows, GapThreshold(rows), |rows|) {
      ChartOfGain(rows, target);
    }
  }

  /** With n stretches the chart holds at most the larger of budget and n, plus n less one, readings. */
  lemma {:induction false} DeltaChartWithinBudget(rows: seq<Row>, target: int)
    requires RangeDelta(rows).Some?
    ensures var n := |Stretches(rows, GapThreshold(rows), |rows|)|;
      n > 0 && |Values(DeltaChart(rows, target))| <= Max(target, n) + n - 1
  {
    CurvesEnd(rows, GapThreshold(rows));
    AllKept(DeltaSegments(rows));
    ChartWithinBudget(DeltaSegments(rows), target, Last);
  }

  // ---------------------------------------------------------------- every reading is on the curve, in order

  /** The readings are the running totals at some rows, taken in the order of the rows. */
  ghost predicate OnCurve(rows: seq<Row>, threshold: int, readings: seq<SeriesPoint>, marks: seq<nat>, end: nat) {
    && |marks| == |readings|
    && (forall i :: 0 <= i < |marks| ==> marks[i] < end <= |rows|)
    && (forall i :: 0 <= i < |marks| ==>
          readings[i] == SeriesPoint(rows[marks[i]].ts, RunningTotal(rows, threshold, marks[i])))
    && (forall i, j :: 0 <= i < j < |marks| ==> marks[i] < marks[j])
  }

  lemma {:induction false} ReducedOnCurve(rows: seq<Row>, threshold: int, from: nat, until: nat, size: nat)
    returns (marks: seq<nat>)
    requires from <= until <= |rows| && size > 0
    ensures OnCurve(rows, threshold, Reduced(Curve(rows, threshold, from, until), size, Last), marks, until)
    ensures forall i :: 0 <= i < |marks| ==> from <= marks[i]
    decreases until - from
  {
    if from == until {
      marks := [];
    } else {
      var points := Curve(rows, threshold, from, until);
      var cut := Min(size, |points|);
      assert points[cut..] == Curve(rows, threshold, from + cut, until);
      var rest := ReducedOnCurve(rows, threshold, from + cut, until, size);
      marks := [from + cut - 1] + rest;
    }
  }

  lemma {:induction false} DownsampledOnCurve(rows: seq<Row>, threshold: int, from: nat, until: nat, target: int)
    returns (marks: seq<nat>)
    requires from <= until <= |rows|
    ensures OnCurve(rows, threshold, Downsampled(Curve(rows, threshold, from, until), target, Last), marks, until)
    ensures forall i :: 0 <= i < |marks| ==> from <= marks[i]
  {
    var points := Curve(rows, threshold, from, until);
    if target <= 0 || |points| <= target {
      marks := seq(|points|, i => from + i);
    } else {
      marks := ReducedOnCurve(rows, threshold, from, until, BucketSize(|points|, target));
    }
  }

  lemma {:induction false} OnCurveJoins(rows: seq<Row>, threshold: int, first: seq<SeriesPoint>, marks: seq<nat>,
                                        middle: nat, second: seq<SeriesPoint>, more: seq<nat>, end: nat)
    requires OnCurve(rows, threshold, first, marks, middle) && OnCurve(rows, threshold, second, more, end)
    requires middle <= end <= |rows| && forall i :: 0 <= i < |more| ==> middle <= more[i]
    ensures OnCurve(rows, threshold, first + second, marks + more, end)
  {
    var all, readings := marks + more, first + second;
    forall i | 0 <= i < |all|
      ensures all[i] < end <= |rows|
      ensures readings[i] == SeriesPoint(rows[all[i]].ts, RunningTotal(rows, threshold, all[i]))
    {
      if i < |marks| {
        assert all[i] == marks[i] < middle <= end && readings[i] == first[i];
      } else {
        assert all[i] == more[i - |marks|] < end && readings[i] == second[i - |marks|];
      }
    }
    forall i, j | 0 <= i < j < |all|
      ensures all[i] < all[j]
    {
    }
  }

  /** Appending the reduced curve of one more stretch to readings that are on the curve before it. */
  lemma {:induction false} StretchOnCurve(rows: seq<Row>, threshold: int, first: seq<SeriesPoint>, marks: seq<nat>,
                                          middle: nat, last: Stretch, budget: nat) returns (all: seq<nat>)
    requires last.from <= last.until <= |rows| && middle <= last.from
    requires OnCurve(rows, threshold, first, marks, middle)
    ensures OnCurve(rows, threshold, first + Downsampled(Curve(rows, threshold, last.from, last.until), budget, Last),
                    all, last.until)
  {
    var more := DownsampledOnCurve(rows, threshold, last.from, last.until, budget);
    all := marks + more;
    OnCurveJoins(rows, threshold, first, marks, middle,
                 Downsampled(Curve(rows, threshold, last.from, last.until), budget, Last), more, last.until);
  }

  lemma {:induction false} JoinedOnCurve(rows: seq<Row>, threshold: int, stretches: seq<Stretch>, budgets: seq<nat>)
    returns (marks: seq<nat>)
    requires |budgets| == |stretches|
    requires forall i :: 0 <= i < |stretches| ==> stretches[i].from + 1 < stretches[i].until <= |rows|
    requires Apart(stretches)
    ensures OnCurve(rows, threshold, Values(Joined(Curves(rows, threshold, stretches), budgets, Last)), marks,
                    if stretches == [] then 0 else stretches[|stretches| - 1].until)
    decreases |stretches|
  {
    marks := [];
    if stretches != [] {
      var n := |stretches| - 1;
      ApartPrefix(stretches);
      marks := JoinedOnCurve(rows, threshold, stretches[..n], budgets[..n]);
      var curves := Curves(rows, threshold, stretches);
      assert curves[..n] == Curves(rows, threshold, stretches[..n]);
      JoinedValues(curves, budgets, Last);
      marks := StretchOnCurve(rows, threshold, Values(Joined(curves[..n], budgets[..n], Last)), marks,
                              if n == 0 then 0 else stretches[n - 1].until, stretches[n], budgets[n]);
    }
  }

  lemma {:induction false} OnCurveRises(rows: seq<Row>, threshold: int, readings: seq<SeriesPoint>, marks: seq<nat>,
                                        end: nat)
    requires OnCurve(rows, threshold, readings, marks, end)
    ensures forall i, j :: 0 <= i < j < |readings| ==> readings[i].value <= readings[j].value
  {
    forall i, j | 0 <= i < j < |readings|
      ensures readings[i].value <= readings[j].value
    {
      RunningTotalGrows(rows, threshold, marks[i], marks[j]);
    }
  }

  lemma {:induction false} MergedOnCurve(rows: seq<Row>, threshold: int, stretches: seq<Stretch>, target: int)
    returns (marks: seq<nat>)
    requires forall i :: 0 <= i < |stretches| ==> stretches[i].from + 1 < stretches[i].until <= |rows|
    requires Apart(stretches)
    ensures OnCurve(rows, threshold, Values(Merged(Curves(rows, threshold, stretches), target, Last)), marks,
                    if stretches == [] then 0 else stretches[|stretches| - 1].until)
  {
    var segments := Curves(rows, threshold, stretches);
    AllKept(segments);
    MergedIsJoined(segments, target, Last);
    marks := JoinedOnCurve(rows, threshold, stretches, Budgets(Lengths(segments), target));
  }

  /** Every reading of the chart is the running total at one of the rows, in the order of the rows; so the
      readings never fall. */
  lemma {:induction false} ReadingsOnCurve(rows: seq<Row>, target: int) returns (marks: seq<nat>)
    ensures OnCurve(rows, GapThreshold(rows), Values(DeltaChart(rows, target)), marks, |rows|)
    ensures var readings := Values(DeltaChart(rows, target));
      forall i, j :: 0 <= i < j < |readings| ==> readings[i].value <= readings[j].value
  {
    var threshold := GapThreshold(rows);
    marks := [];
    if AnyGain(rows, threshold, |rows|) {
      StretchesCover(rows, threshold, |rows|);
      marks := MergedOnCurve(rows, threshold, Stretches(rows, threshold, |rows|), target);
    }
    OnCurveRises(rows, threshold, Values(DeltaChart(rows, target)), marks, |rows|);
  }
}
