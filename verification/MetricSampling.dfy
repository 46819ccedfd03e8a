/**
 The store's sampling query, which thins the timestamps of a window to one per bucket, against the dashboard's
 reduction of a series.
 */
module MetricSampling {
  import opened ChartPoints

  /** The bucket the query puts the row of a given rank into. */
  function SampleBucket(rank: nat, total: nat, max: nat): nat
    requires max > 0
  {
    if total <= max then rank else Quotient(rank, Quotient(total + max - 1, max))
  }

  /** The timestamps the query selects: in each bucket, the greatest. */
  ghost predicate Sampled(times: seq<int>, max: nat, j: nat)
    requires max > 0 && j < |times|
  {
    forall k :: 0 <= k < |times| && SampleBucket(k, |times|, max) == SampleBucket(j, |times|, max)
      ==> times[k] <= times[j]
  }

  predicate StrictlyAscending(times: seq<int>) {
    forall i, j :: 0 <= i < j < |times| ==> times[i] < times[j]
  }

  /** A result in ascending order holding exactly the sampled timestamps. */
  ghost predicate IsSample(times: seq<int>, max: nat, result: seq<int>)
    requires max > 0
  {
    && StrictlyAscending(result)
    && (forall t :: t in result ==> t in times)
    && forall j :: 0 <= j < |times| ==> (times[j] in result <==> Sampled(times, max, j))
  }

  function Times(points: seq<SeriesPoint>): (r: seq<int>)
    ensures |r| == |points| && forall i :: 0 <= i < |r| ==> r[i] == points[i].ts
  {
    seq(|points|, i requires 0 <= i < |points| => points[i].ts)
  }

  lemma {:induction false} QuotientMonotone(j: nat, k: nat, size: nat)
    requires size > 0 && j <= k
    ensures Quotient(j, size) <= Quotient(k, size)
  {
    if j >= size {
      QuotientMonotone(j - size, k - size, size);
    }
  }

  /** A row ends its bucket. */
  predicate Ends(count: nat, size: nat, j: nat)
    requires size > 0 && j < count
  {
    j + 1 == count || Quotient(j + 1, size) != Quotient(j, size)
  }

  /** Among ascending timestamps the greatest of each bucket is the one that ends it. */
  lemma {:induction false} GreatestEnds(times: seq<int>, size: nat, j: nat)
    requires size > 0 && j < |times| && StrictlyAscending(times)
    ensures (forall k :: 0 <= k < |times| && Quotient(k, size) == Quotient(j, size) ==> times[k] <= times[j])
            <==> Ends(|times|, size, j)
  {
    QuotientMonotone(j, j + 1, size);
    if Ends(|times|, size, j) {
      forall k | 0 <= k < |times| && Quotient(k, size) == Quotient(j, size)
        ensures times[k] <= times[j]
      {
        if k > j {
          QuotientMonotone(j + 1, k, size);
        }
      }
    } else {
      assert times[j] < times[j + 1];
    }
  }

  /** The reduction takes no time that was not there. */
  lemma {:induction false} ReducedFrom(points: seq<SeriesPoint>, size: nat, t: int)
    requires size > 0 && t in Times(Reduced(points, size, Last))
    ensures t in Times(points)
  {
    var cut := Min(size, |points|);
    var r, rest := Reduced(points, size, Last), Reduced(points[cut..], size, Last);
    var b :| 0 <= b < |r| && r[b].ts == t;
    if b == 0 {
      assert Times(points)[cut - 1] == t;
    } else {
      assert Times(rest)[b - 1] == t;
      ReducedFrom(points[cut..], size, t);
      var i :| 0 <= i < |points| - cut && points[cut..][i].ts == t;
      assert Times(points)[cut + i] == t;
    }
  }

  lemma {:induction false} ReducedAscends(points: seq<SeriesPoint>, size: nat)
    requires size > 0 && StrictlyAscending(Times(points))
    ensures StrictlyAscending(Times(Reduced(points, size, Last)))
  {
    if points != [] {
      var cut := Min(size, |points|);
      var tail := points[cut..];
      var r, rest := Times(Reduced(points, size, Last)), Times(Reduced(tail, size, Last));
      TailAscends(points, cut);
      ReducedAscends(tail, size);
      assert r[0] == points[cut - 1].ts;
      assert forall b :: 0 < b < |r| ==> r[b] == rest[b - 1];
      forall b | 0 < b < |r|
        ensures r[0] < r[b]
      {
        assert rest[b - 1] in rest;
        ReducedFrom(tail, size, r[b]);
        LaterTime(points, cut, r[b]);
      }
    }
  }

  lemma {:induction false} TailAscends(points: seq<SeriesPoint>, cut: nat)
    requires cut <= |points| && StrictlyAscending(Times(points))
    ensures StrictlyAscending(Times(points[cut..]))
  {
    var times, tail := Times(points), Times(points[cut..]);
    assert forall i :: 0 <= i < |tail| ==> tail[i] == times[cut + i];
  }

  lemma {:induction false} LaterTime(points: seq<SeriesPoint>, cut: nat, t: int)
    requires 0 < cut <= |points| && StrictlyAscending(Times(points)) && t in Times(points[cut..])
    ensures forall i :: 0 <= i < cut ==> points[i].ts < t
  {
    var times := Times(points);
    var k :| 0 <= k < |points| - cut && Times(points[cut..])[k] == t;
    assert times[cut + k] == t;
    forall i | 0 <= i < cut
      ensures points[i].ts < t
    {
      assert times[i] < times[cut + k];
    }
  }

  /** The reduction keeps exactly the points that end their buckets. */
  lemma {:induction false} ReducedEnds(points: seq<SeriesPoint>, size: nat, j: nat)
    requires size > 0 && j < |points| && StrictlyAscending(Times(points))
    ensures points[j].ts in Times(Reduced(points, size, Last)) <==> Ends(|points|, size, j)
  {
    var cut := Min(size, |points|);
    var tail := points[cut..];
    var r, rest := Times(Reduced(points, size, Last)), Times(Reduced(tail, size, Last));
    var t := points[j].ts;
    assert r == [points[cut - 1].ts] + rest;
    if j < cut {
      FirstBucket(points, cut, j);
      if t in rest {
        ReducedFrom(tail, size, t);
        LaterTime(points, cut, t);
      }
    } else {
      TailAscends(points, cut);
      ReducedEnds(tail, size, j - cut);
      assert Times(points)[cut - 1] < Times(points)[j];
    }
  }

  lemma {:induction false} FirstBucket(points: seq<SeriesPoint>, cut: nat, j: nat)
    requires j < cut <= |points| && StrictlyAscending(Times(points))
    ensures points[j].ts == points[cut - 1].ts <==> j == cut - 1
  {
    if j < cut - 1 {
      assert Times(points)[j] < Times(points)[cut - 1];
    }
  }

  /** The dashboard's "last" reduction and the store's query select the same timestamps, for strictly ascending
      points and a positive target. */
  lemma {:induction false} ReductionMatchesQuery(points: seq<SeriesPoint>, target: nat)
    requires target > 0 && StrictlyAscending(Times(points))
    ensures IsSample(Times(points), target, Times(Downsampled(points, target, Last)))
  {
    if |points| > target {
      ThinnedMatchesQuery(points, target, Quotient(|points| + target - 1, target));
    } else {
      AllSampled(Times(points), target);
    }
  }

  lemma {:induction false} AllSampled(times: seq<int>, target: nat)
    requires target > 0 && |times| <= target && StrictlyAscending(times)
    ensures IsSample(times, target, times)
  {
  }

  lemma {:induction false} ThinnedMatchesQuery(points: seq<SeriesPoint>, target: nat, size: nat)
    requires 0 < target < |points| && size == Quotient(|points| + target - 1, target)
    requires StrictlyAscending(Times(points))
    ensures IsSample(Times(points), target, Times(Reduced(points, size, Last)))
  {
    var times, reduced := Times(points), Times(Reduced(points, size, Last));
    ReducedAscends(points, size);
    forall t | t in reduced
      ensures t in times
    {
      ReducedFrom(points, size, t);
    }
    forall j | 0 <= j < |times|
      ensures times[j] in reduced <==> Sampled(times, target, j)
    {
      ReducedEnds(points, size, j);
      GreatestEnds(times, size, j);
      SampledBuckets(times, target, size, j);
    }
  }

  lemma {:induction false} SampledBuckets(times: seq<int>, target: nat, size: nat, j: nat)
    requires j < |times| && 0 < target < |times| && size == Quotient(|times| + target - 1, target)
    ensures Sampled(times, target, j)
            <==> forall k :: 0 <= k < |times| && Quotient(k, size) == Quotient(j, size) ==> times[k] <= times[j]
  {
    assert forall k :: 0 <= k < |times| ==> SampleBucket(k, |times|, target) == Quotient(k, size);
  }
}
