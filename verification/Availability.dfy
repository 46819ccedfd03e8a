/**
 Availability accounting of a node over a report window: gaps between samples
 longer than the outage threshold become outages that start one expected
 sample interval after the last sample.
 */
module Availability {

  const INTERVAL := 5
  const THRESHOLD := 20

  datatype Outage = Outage(start: int, end: int)

  datatype Summary = Summary(expected: int, observed: nat, outages: nat, offline: int, last: seq<Outage>, percent: real)

  // ---------------------------------------------------------------- what the report means

  /** The outage of one gap, if it has any. */
  function GapOutage(previous: int, ts: int): seq<Outage> {
    if ts - previous > THRESHOLD then [Outage(previous + INTERVAL, ts)] else []
  }

  /** The outages between a point in time and the end of the window, given the samples after it. */
  function OutagesFrom(previous: int, samples: seq<int>, to: int): seq<Outage>
    decreases |samples|
  {
    if samples == [] then GapOutage(previous, to)
    else GapOutage(previous, samples[0]) + OutagesFrom(samples[0], samples[1..], to)
  }

  function Duration(outages: seq<Outage>): int
    decreases |outages|
  {
    if outages == [] then 0
    else
      var n := |outages| - 1;
      Duration(outages[..n]) + outages[n].end - outages[n].start
  }

  /** The outages of a window: all of it without samples. */
  function Outages(from: int, to: int, samples: seq<int>): seq<Outage> {
    if samples == [] then [Outage(from, to)] else OutagesFrom(from, samples, to)
  }

  /** Samples come from a query ordered by time and limited to the window. */
  ghost predicate InWindow(from: int, to: int, samples: seq<int>) {
    && from <= to
    && (forall i :: 0 <= i < |samples| ==> from <= samples[i] <= to)
    && (forall i, j :: 0 <= i < j < |samples| ==> samples[i] <= samples[j])
  }

  /** Outages are disjoint, in order, and inside the window. */
  ghost predicate Separate(outages: seq<Outage>, from: int, to: int) {
    && (forall i :: 0 <= i < |outages| ==> from <= outages[i].start <= outages[i].end <= to)
    && (forall i, j :: 0 <= i < j < |outages| ==> outages[i].end < outages[j].start)
  }

  lemma {:induction false} DurationAppend(a: seq<Outage>, b: seq<Outage>)
    ensures Duration(a + b) == Duration(a) + Duration(b)
    decreases |b|
  {
    if b == [] {
      assert a + b == a;
    } else {
      assert (a + b)[..|a + b| - 1] == a + b[..|b| - 1];
      DurationAppend(a, b[..|b| - 1]);
    }
  }

  /** The offline time of one gap. */
  function Cost(gap: int): int {
    if gap > THRESHOLD then gap - INTERVAL else 0
  }

  lemma GapDuration(previous: int, ts: int)
    ensures Duration(GapOutage(previous, ts)) == Cost(ts - previous)
  {
    if ts - previous > THRESHOLD {
      assert [Outage(previous + INTERVAL, ts)][..0] == [];
    }
  }

  lemma {:induction false} FromSeparate(previous: int, samples: seq<int>, to: int)
    requires InWindow(previous, to, samples)
    ensures var outages := OutagesFrom(previous, samples, to);
      && Separate(outages, previous, to)
      && (forall i :: 0 <= i < |outages| ==> previous + INTERVAL <= outages[i].start)
    decreases |samples|
  {
    if samples != [] {
      FromSeparate(samples[0], samples[1..], to);
    }
  }

  lemma {:induction false} FromBounded(previous: int, samples: seq<int>, to: int)
    requires InWindow(previous, to, samples)
    ensures var outages := OutagesFrom(previous, samples, to);
      0 <= Duration(outages) && Duration(outages) + INTERVAL * |outages| <= to - previous
    decreases |samples|
  {
    GapDuration(previous, if samples == [] then to else samples[0]);
    if samples != [] {
      FromBounded(samples[0], samples[1..], to);
      DurationAppend(GapOutage(previous, samples[0]), OutagesFrom(samples[0], samples[1..], to));
    }
  }

  /** Over ordered samples of the window, the outages are disjoint intervals inside it, and with any sample at
      all their length leaves at least one interval per outage: availability is between 0 and 100 percent. */
  lemma OutagesSound(from: int, to: int, samples: seq<int>)
    requires InWindow(from, to, samples)
    ensures Separate(Outages(from, to, samples), from, to)
    ensures 0 <= Duration(Outages(from, to, samples)) <= to - from
    ensures samples != [] ==>
      Duration(Outages(from, to, samples)) + INTERVAL * |Outages(from, to, samples)| <= to - from
  {
    if samples == [] {
      assert [Outage(from, to)][..0] == [];
    } else {
      FromSeparate(from, samples, to);
      FromBounded(from, samples, to);
    }
  }

  // ---------------------------------------------------------------- offline seconds

  /** Two neighbouring points in time among the samples and the ends of the window. */
  predicate Neighbours(from: int, to: int, samples: seq<int>, p: int, n: int) {
    (p == from || p in samples) && (n == to || n in samples) && p < n && forall t :: t in samples ==> t <= p || n <= t
  }

  /** A second is offline in a silence of more than twenty seconds, once the next sample was due. */
  ghost predicate Offline(from: int, to: int, samples: seq<int>, x: int) {
    exists p, n :: Neighbours(from, to, samples, p, n) && n - p > 20 && p + 5 <= x < n
  }

  ghost predicate Covers(outages: seq<Outage>, x: int) {
    exists o :: o in outages && o.start <= x < o.end
  }

  lemma FirstNeighbours(from: int, samples: seq<int>, to: int, p: int, n: int)
    requires InWindow(from, to, samples) && samples != []
    ensures Neighbours(from, to, samples, p, n) <==>
      (p == from && n == samples[0] && p < n) || Neighbours(samples[0], to, samples[1..], p, n)
  {
    var first, rest := samples[0], samples[1..];
    assert forall t :: t in samples <==> t == first || t in rest;
    assert forall t :: t in samples ==> from <= first <= t <= to;
    if Neighbours(from, to, samples, p, n) && !(p == from && n == first) {
      assert first in samples;
      assert first <= p;
    }
  }

  /** The outages are exactly the silences of more than twenty seconds between neighbours, each from five seconds
      after the one to the other. */
  lemma {:induction false} SilencesExactly(from: int, samples: seq<int>, to: int, o: Outage)
    requires InWindow(from, to, samples)
    ensures o in OutagesFrom(from, samples, to) <==>
      Neighbours(from, to, samples, o.start - 5, o.end) && o.end - (o.start - 5) > 20
    decreases |samples|
  {
    if samples != [] {
      var first, rest := GapOutage(from, samples[0]), OutagesFrom(samples[0], samples[1..], to);
      FirstNeighbours(from, samples, to, o.start - 5, o.end);
      SilencesExactly(samples[0], samples[1..], to, o);
      assert o in first + rest <==> o in first || o in rest;
      assert o in first <==> o.start - 5 == from && o.end == samples[0] && samples[0] - from > 20;
    }
  }

  lemma CoveredIsOffline(from: int, to: int, samples: seq<int>, o: Outage, x: int)
    requires InWindow(from, to, samples) && o in OutagesFrom(from, samples, to) && o.start <= x < o.end
    ensures Offline(from, to, samples, x)
  {
    SilencesExactly(from, samples, to, o);
    assert Neighbours(from, to, samples, o.start - 5, o.end);
  }

  lemma OfflineIsCovered(from: int, to: int, samples: seq<int>, p: int, n: int, x: int)
    requires InWindow(from, to, samples) && Neighbours(from, to, samples, p, n) && n - p > 20 && p + 5 <= x < n
    ensures Covers(OutagesFrom(from, samples, to), x)
  {
    SilencesExactly(from, samples, to, Outage(p + 5, n));
  }

  lemma OfflineExactly(from: int, to: int, samples: seq<int>, x: int)
    requires InWindow(from, to, samples)
    ensures Covers(OutagesFrom(from, samples, to), x) <==> Offline(from, to, samples, x)
  {
    var outages := OutagesFrom(from, samples, to);
    if Covers(outages, x) {
      var o :| o in outages && o.start <= x < o.end;
      CoveredIsOffline(from, to, samples, o, x);
    } else if Offline(from, to, samples, x) {
      var p, n :| Neighbours(from, to, samples, p, n) && n - p > 20 && p + 5 <= x < n;
      OfflineIsCovered(from, to, samples, p, n, x);
    }
  }

  function Seconds(a: int, b: int): (r: set<int>)
    ensures forall x :: x in r <==> a <= x < b
    ensures |r| == if a <= b then b - a else 0
    decreases b - a
  {
    if a >= b then {} else Seconds(a, b - 1) + {b - 1}
  }

  ghost function Covered(outages: seq<Outage>, from: int, to: int): set<int> {
    set x | from <= x < to && Covers(outages, x)
  }

  lemma CoversLast(outages: seq<Outage>, x: int)
    requires outages != []
    ensures var n := |outages| - 1;
      Covers(outages, x) <==> Covers(outages[..n], x) || outages[n].start <= x < outages[n].end
  {
    var front, last := outages[..|outages| - 1], outages[|outages| - 1];
    assert forall o :: o in outages <==> o in front || o == last;
  }

  lemma LastCovers(outages: seq<Outage>, from: int, to: int)
    requires outages != [] && from <= outages[|outages| - 1].start && outages[|outages| - 1].end <= to
    ensures var n := |outages| - 1;
      Covered(outages, from, to) == Covered(outages[..n], from, to) + Seconds(outages[n].start, outages[n].end)
  {
    forall x
      ensures x in Covered(outages, from, to) <==>
        x in Covered(outages[..|outages| - 1], from, to)
        || outages[|outages| - 1].start <= x < outages[|outages| - 1].end
    {
      CoversLast(outages, x);
    }
  }

  lemma LastApart(outages: seq<Outage>, from: int, to: int)
    requires Separate(outages, from, to) && outages != []
    ensures var n := |outages| - 1;
      Covered(outages[..n], from, to) !! Seconds(outages[n].start, outages[n].end)
  {
    var front := outages[..|outages| - 1];
    forall x | Covers(front, x)
      ensures x !in Seconds(outages[|outages| - 1].start, outages[|outages| - 1].end)
    {
      var o :| o in front && o.start <= x < o.end;
      var i :| 0 <= i < |front| && front[i] == o;
      assert outages[i] == o;
    }
  }

  lemma {:induction false} DurationCounts(outages: seq<Outage>, from: int, to: int)
    requires Separate(outages, from, to)
    ensures Duration(outages) == |Covered(outages, from, to)|
    decreases |outages|
  {
    if outages == [] {
      assert Covered(outages, from, to) == {};
    } else {
      DurationCounts(outages[..|outages| - 1], from, to);
      LastCovers(outages, from, to);
      LastApart(outages, from, to);
    }
  }

  /** So the offline time of a window is the number of its offline seconds, and all of it without samples. */
  lemma OfflineSeconds(from: int, to: int, samples: seq<int>)
    requires InWindow(from, to, samples)
    ensures samples == [] ==> Duration(Outages(from, to, samples)) == to - from
    ensures samples != [] ==>
      Duration(Outages(from, to, samples)) == |set x | from <= x < to && Offline(from, to, samples, x)|
  {
    OutagesSound(from, to, samples);
    if samples == [] {
      DurationAppend([], [Outage(from, to)]);
      return;
    }
    DurationCounts(Outages(from, to, samples), from, to);
    forall x
      ensures Covers(Outages(from, to, samples), x) <==> Offline(from, to, samples, x)
    {
      OfflineExactly(from, to, samples, x);
    }
    assert Covered(Outages(from, to, samples), from, to) ==
           set x | from <= x < to && Offline(from, to, samples, x);
  }

  // ---------------------------------------------------------------- more samples

  /** Splitting a gap never costs more than the gap. */
  lemma CostSuperadditive(a: int, b: int)
    requires a >= 0 && b >= 0
    ensures Cost(a) + Cost(b) <= Cost(a + b)
  {
  }

  function Insert(samples: seq<int>, ts: int): seq<int>
    decreases |samples|
  {
    if samples == [] || ts <= samples[0] then [ts] + samples else [samples[0]] + Insert(samples[1..], ts)
  }

  lemma {:induction false} InsertKeepsWindow(from: int, to: int, samples: seq<int>, ts: int)
    requires InWindow(from, to, samples) && from <= ts <= to
    ensures InWindow(from, to, Insert(samples, ts))
    ensures multiset(Insert(samples, ts)) == multiset(samples) + multiset{ts}
    decreases |samples|
  {
    if samples != [] {
      assert samples == [samples[0]] + samples[1..];
      if ts > samples[0] {
        InsertKeepsWindow(samples[0], to, samples[1..], ts);
      }
    }
  }

  lemma {:induction false} InsertCheaper(previous: int, samples: seq<int>, to: int, ts: int)
    requires InWindow(previous, to, samples) && previous <= ts <= to
    ensures Duration(OutagesFrom(previous, Insert(samples, ts), to)) <= Duration(OutagesFrom(previous, samples, to))
    decreases |samples|
  {
    var next := if samples == [] then to else samples[0];
    if samples == [] || ts <= samples[0] {
      assert ([ts] + samples)[1..] == samples;
      DurationAppend(GapOutage(previous, ts), OutagesFrom(ts, samples, to));
      GapDuration(previous, ts);
      GapDuration(ts, next);
      GapDuration(previous, next);
      CostSuperadditive(ts - previous, next - ts);
      if samples != [] {
        DurationAppend(GapOutage(ts, next), OutagesFrom(next, samples[1..], to));
        DurationAppend(GapOutage(previous, next), OutagesFrom(next, samples[1..], to));
      }
    } else {
      InsertCheaper(samples[0], samples[1..], to, ts);
      var more := Insert(samples[1..], ts);
      assert ([samples[0]] + more)[1..] == more;
      DurationAppend(GapOutage(previous, samples[0]), OutagesFrom(samples[0], more, to));
      DurationAppend(GapOutage(previous, samples[0]), OutagesFrom(samples[0], samples[1..], to));
    }
  }

  function InsertAll(samples: seq<int>, extra: seq<int>): seq<int>
    decreases |extra|
  {
    if extra == [] then samples else Insert(InsertAll(samples, extra[1..]), extra[0])
  }

  /** More samples never add offline time. */
  lemma {:induction false} MoreSamplesNeverHurt(from: int, to: int, samples: seq<int>, extra: seq<int>)
    requires InWindow(from, to, samples) && forall i :: 0 <= i < |extra| ==> from <= extra[i] <= to
    ensures InWindow(from, to, InsertAll(samples, extra))
    ensures multiset(InsertAll(samples, extra)) == multiset(samples) + multiset(extra)
    ensures Duration(Outages(from, to, InsertAll(samples, extra))) <= Duration(Outages(from, to, samples))
    decreases |extra|
  {
    if extra != [] {
      assert extra == [extra[0]] + extra[1..];
      MoreSamplesNeverHurt(from, to, samples, extra[1..]);
      var before := InsertAll(samples, extra[1..]);
      InsertKeepsWindow(from, to, before, extra[0]);
      if before == [] {
        assert InsertAll(samples, extra) == [extra[0]];
        OutagesSound(from, to, [extra[0]]);
        DurationAppend([], [Outage(from, to)]);
        assert Duration(Outages(from, to, before)) == to - from;
      } else {
        InsertCheaper(from, before, to, extra[0]);
      }
    }
  }

  // ---------------------------------------------------------------- the accounting loop

  predicate Inside(from: int, to: int, ts: int) {
    from <= ts <= to
  }

  function Relevant(from: int, to: int, samples: seq<int>): seq<int>
    decreases |samples|
  {
    if samples == [] then []
    else
      var n := |samples| - 1;
      Relevant(from, to, samples[..n]) + (if Inside(from, to, samples[n]) then [samples[n]] else [])
  }

  function LastBefore(from: int, seen: seq<int>): int {
    if seen == [] then from else seen[|seen| - 1]
  }

  /** The outages of the gaps before each sample, without the tail. */
  function GapsBefore(from: int, samples: seq<int>): seq<Outage>
    decreases |samples|
  {
    if samples == [] then []
    else
      var n := |samples| - 1;
      GapsBefore(from, samples[..n]) + GapOutage(LastBefore(from, samples[..n]), samples[n])
  }

  lemma {:induction false} GapsThenTail(from: int, samples: seq<int>, to: int)
    ensures OutagesFrom(from, samples, to)
      == GapsBefore(from, samples) + GapOutage(LastBefore(from, samples), to)
    decreases |samples|
  {
    if samples != [] {
      var last := LastBefore(from, samples);
      assert last == LastBefore(samples[0], samples[1..]);
      var first, rest, tail := GapOutage(from, samples[0]), GapsBefore(samples[0], samples[1..]), GapOutage(last, to);
      GapsThenTail(samples[0], samples[1..], to);
      GapsFirst(from, samples);
      assert OutagesFrom(samples[0], samples[1..], to) == rest + tail;
      assert first + (rest + tail) == (first + rest) + tail;
    }
  }

  lemma GapsSnoc(from: int, seen: seq<int>, ts: int)
    ensures GapsBefore(from, seen + [ts]) == GapsBefore(from, seen) + GapOutage(LastBefore(from, seen), ts)
  {
    assert (seen + [ts])[..|seen|] == seen;
  }

  lemma {:induction false} GapsFirst(from: int, samples: seq<int>)
    requires samples != []
    ensures GapsBefore(from, samples) == GapOutage(from, samples[0]) + GapsBefore(samples[0], samples[1..])
    decreases |samples|
  {
    var n := |samples| - 1;
    var front, x := samples[..n], samples[n];
    assert samples == front + [x];
    GapsSnoc(from, front, x);
    if n == 0 {
      assert samples[1..] == [];
    } else {
      var first, tail := samples[0], samples[1..n];
      assert samples[1..] == tail + [x] && front[1..] == tail;
      GapsSnoc(first, tail, x);
      GapsFirst(from, front);
      assert LastBefore(first, tail) == LastBefore(from, front);
    }
  }

  lemma GapsStep(from: int, seen: seq<int>, ts: int)
    ensures GapsBefore(from, seen + [ts]) == GapsBefore(from, seen) + GapOutage(LastBefore(from, seen), ts)
    ensures Duration(GapsBefore(from, seen + [ts])) ==
            Duration(GapsBefore(from, seen)) + Cost(ts - LastBefore(from, seen))
  {
    GapsSnoc(from, seen, ts);
    DurationAppend(GapsBefore(from, seen), GapOutage(LastBefore(from, seen), ts));
    GapDuration(LastBefore(from, seen), ts);
  }

  lemma RelevantStep(from: int, to: int, samples: seq<int>, i: nat)
    requires i < |samples|
    ensures Relevant(from, to, samples[..i + 1])
            == Relevant(from, to, samples[..i]) + if Inside(from, to, samples[i]) then [samples[i]] else []
  {
    assert samples[..i + 1][..i] == samples[..i];
  }

  ghost predicate Counted(found: seq<Outage>, outages: nat, offline: int, last: seq<Outage>) {
    outages == |found| && offline == Duration(found) && last == LastOf(found)
  }

  function LastOf(found: seq<Outage>): seq<Outage> {
    if found == [] then [] else [found[|found| - 1]]
  }

  /** Account for one gap. */
  method CountGap(previous: int, ts: int, outages: nat, offline: int, last: seq<Outage>, ghost found: seq<Outage>)
    returns (outages': nat, offline': int, last': seq<Outage>)
    requires Counted(found, outages, offline, last)
    ensures Counted(found + GapOutage(previous, ts), outages', offline', last')
  {
    DurationAppend(found, GapOutage(previous, ts));
    GapDuration(previous, ts);
    outages', offline', last' := outages, offline, last;
    if ts - previous > THRESHOLD {
      var start := previous + INTERVAL;
      outages' := outages + 1;
      offline' := offline + (ts - start);
      last' := [Outage(start, ts)];
    }
  }

  /** The percentage of a window that was online. */
  function Percent(from: int, to: int, offline: int): real {
    if to <= from then 100.0
    else if to - from < offline then 0.0
    else (to - from - offline) as real / (to - from) as real * 100.0
  }

  method OnlinePercent(from: int, to: int, offline: int) returns (percent: real)
    ensures percent == Percent(from, to, offline)
  {
    var span := to - from;
    if span <= 0 {
      return 100.0;
    }
    var online := (span - offline) as real;
    if online < 0.0 {
      online := 0.0;
    }
    percent := online / span as real * 100.0;
  }

  /** The loop over the samples: those outside the window are passed over. */
  method CountGaps(from: int, to: int, samples: seq<int>)
    returns (outages: nat, offline: int, last: seq<Outage>, previous: int)
    ensures var relevant := Relevant(from, to, samples);
      Counted(GapsBefore(from, relevant), outages, offline, last)
      && previous == LastBefore(from, relevant)
  {
    outages, offline, last, previous := 0, 0, [], from;
    for i := 0 to |samples|
      invariant previous == LastBefore(from, Relevant(from, to, samples[..i]))
      invariant Counted(GapsBefore(from, Relevant(from, to, samples[..i])), outages, offline, last)
    {
      RelevantStep(from, to, samples, i);
      var ts := samples[i];
      ghost var seen := Relevant(from, to, samples[..i]);
      if ts < from || ts > to {
        assert Relevant(from, to, samples[..i + 1]) == seen;
        continue;
      }
      assert Relevant(from, to, samples[..i + 1]) == seen + [ts];
      GapsStep(from, seen, ts);
      outages, offline, last := CountGap(previous, ts, outages, offline, last, GapsBefore(from, seen));
      previous := ts;
    }
    assert samples[..|samples|] == samples;
  }

  /** What the report of a window counts: its one whole-window outage, or the outages between its samples. */
  function Accounted(from: int, to: int, samples: seq<int>): seq<Outage> {
    if samples == [] then [Outage(from, to)] else OutagesFrom(from, Relevant(from, to, samples), to)
  }

  method CountOutages(from: int, to: int, samples: seq<int>)
    returns (outages: nat, offline: int, last: seq<Outage>)
    ensures Counted(Accounted(from, to, samples), outages, offline, last)
  {
    if |samples| == 0 {
      DurationAppend([], [Outage(from, to)]);
      return 1, to - from, [Outage(from, to)];
    }
    var previous;
    outages, offline, last, previous := CountGaps(from, to, samples);
    ghost var relevant := Relevant(from, to, samples);
    GapsThenTail(from, relevant, to);
    outages, offline, last := CountGap(previous, to, outages, offline, last, GapsBefore(from, relevant));
  }

  /** The summary of the loop: samples outside the window are counted but otherwise ignored. */
  method BuildSummary(from: int, to: int, samples: seq<int>) returns (row: Summary)
    ensures row.observed == |samples|
    ensures row.expected == if from <= to then (to - from) / INTERVAL + 1 else 0
    ensures row.percent == Percent(from, to, row.offline)
    ensures var found := Accounted(from, to, samples);
      && row.outages == |found| && row.offline == Duration(found)
      && (found == [] ==> row.last == []) && (found != [] ==> row.last == [found[|found| - 1]])
  {
    var outages, offline, last := CountOutages(from, to, samples);
    var expected := 0;
    if to - from >= 0 {
      expected := (to - from) / INTERVAL + 1;
    }
    var percent := OnlinePercent(from, to, offline);
    row := Summary(expected, |samples|, outages, offline, last, percent);
  }

  /** The percentage is the part of the window that was not offline; all of an empty window was on line. */
  lemma PercentMeans(from: int, to: int, offline: int)
    ensures from < to && 0 <= offline <= to - from ==>
      Percent(from, to, offline) * (to - from) as real == (to - from - offline) as real * 100.0
    ensures from < to && to - from < offline ==> Percent(from, to, offline) == 0.0
    ensures to <= from ==> Percent(from, to, offline) == 100.0
  {
    if to <= from || !(0 <= offline <= to - from) {
      return;
    }
    var online, span := (to - from - offline) as real, (to - from) as real;
    assert online / span * span == online;
    Reorder(online / span, span);
  }

  lemma Reorder(a: real, b: real)
    ensures a * 100.0 * b == a * b * 100.0
  {
  }

  lemma PercentInRange(from: int, to: int, samples: seq<int>)
    requires InWindow(from, to, samples)
    ensures 0.0 <= Percent(from, to, Duration(Outages(from, to, samples))) <= 100.0
    ensures from < to ==>
      (Percent(from, to, Duration(Outages(from, to, samples))) == 100.0 <==> Duration(Outages(from, to, samples)) == 0)
  {
    OutagesSound(from, to, samples);
    if from < to {
      var span, online := (to - from) as real, (to - from - Duration(Outages(from, to, samples))) as real;
      Ratio(online, span);
    }
  }

  lemma Ratio(a: real, b: real)
    requires 0.0 <= a <= b && b > 0.0
    ensures 0.0 <= a / b <= 1.0
    ensures a / b == 1.0 <==> a == b
  {
    var q := a / b;
    assert q * b == a;
    Sign(q, b);
    Sign(q - 1.0, b);
    assert (q - 1.0) * b == a - b;
  }

  lemma Sign(x: real, b: real)
    requires b > 0.0
    ensures x > 0.0 <==> x * b > 0.0
    ensures x < 0.0 <==> x * b < 0.0
  {
  }

  /** On a report's own samples the loop computes exactly the outages of the window. */
  lemma SummaryIsOutages(from: int, to: int, samples: seq<int>)
    requires InWindow(from, to, samples)
    ensures Outages(from, to, samples) == Accounted(from, to, samples)
  {
    RelevantIsAll(from, to, samples);
  }

  lemma {:induction false} RelevantIsAll(from: int, to: int, samples: seq<int>)
    requires InWindow(from, to, samples)
    ensures Relevant(from, to, samples) == samples
    decreases |samples|
  {
    if samples != [] {
      RelevantIsAll(from, to, samples[..|samples| - 1]);
      assert samples == samples[..|samples| - 1] + [samples[|samples| - 1]];
    }
  }
}
