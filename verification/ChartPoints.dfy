/**
 Fitting chart segments into a point budget: how the budget is divided, how one segment is reduced to its share,
 how the reduced segments are put together. Point values are real numbers here.
 */
module ChartPoints {
  import opened Basics
  import opened StableSort

  datatype Strategy = Average | Last
  datatype SeriesPoint = SeriesPoint(ts: int, value: real)
  datatype ChartPoint = Reading(ts: int, value: real) | Separator(ts: int)

  function Min(a: int, b: int): int { if a < b then a else b }

  /** Whole-number division, by repeated subtraction. */
  function Quotient(n: nat, d: nat): (q: nat)
    requires d > 0
    ensures q == 0 <==> n < d
  {
    if n < d then 0 else 1 + Quotient(n - d, d)
  }

  lemma {:induction false} QuotientBounds(n: nat, d: nat)
    requires d > 0
    ensures Quotient(n, d) * d <= n < (Quotient(n, d) + 1) * d
  {
    if n >= d {
      QuotientBounds(n - d, d);
      var q := Quotient(n - d, d);
      assert (q + 1) * d == q * d + d && (q + 2) * d == (q + 1) * d + d;
    }
  }

  function Sum(s: seq<nat>): nat {
    if s == [] then 0 else Sum(s[..|s| - 1]) + s[|s| - 1]
  }

  lemma {:induction false} SumUpdate(s: seq<nat>, i: nat, value: nat)
    requires i < |s|
    ensures Sum(s[i := value]) == Sum(s) - s[i] + value
  {
    var n := |s| - 1;
    if i == n {
      assert s[i := value][..n] == s[..n];
    } else {
      SumUpdate(s[..n], i, value);
      assert s[i := value][..n] == s[..n][i := value];
    }
  }

  // ---------------------------------------------------------------- dividing the budget

  function SafeTarget(lengths: seq<nat>, target: int): nat { Max(target, |lengths|) }

  /** The guaranteed share of one segment: the whole part of its proportional share, and at least one. */
  function Floor(safe: nat, length: nat, total: nat): nat
    requires total > 0
  {
    Max(1, Quotient(safe * length, total))
  }

  function Floors(lengths: seq<nat>, safe: nat, total: nat): (r: seq<nat>)
    requires total > 0
    ensures |r| == |lengths|
  {
    if lengths == [] then []
    else Floors(lengths[..|lengths| - 1], safe, total) + [Floor(safe, lengths[|lengths| - 1], total)]
  }

  /** The remainder of a share, scaled by the total length; sorted by falling remainder. */
  function Remainder(safe: nat, length: nat, total: nat): int
    requires total > 0
  {
    safe * length - Floor(safe, length, total) * total
  }

  function Remainders(lengths: seq<nat>, safe: nat, total: nat): (r: seq<Keyed>)
    requires total > 0
    ensures |r| == |lengths| && forall i :: 0 <= i < |r| ==> r[i].index == i
  {
    if lengths == [] then []
    else
      var n := |lengths| - 1;
      Remainders(lengths[..n], safe, total) + [Keyed(-Remainder(safe, lengths[n], total), n)]
  }

  /** One more point for each of the first k items of the order. */
  function Topped(shares: seq<nat>, order: seq<Keyed>, k: nat): (r: seq<nat>)
    requires k <= |order| == |shares| && forall x :: x in order ==> x.index < |shares|
    ensures |r| == |shares|
  {
    if k == 0 then shares
    else
      var before := Topped(shares, order, k - 1);
      assert order[k - 1] in order;
      var i := order[k - 1].index;
      before[i := before[i] + 1]
  }

  function Budgets(lengths: seq<nat>, target: int): seq<nat> {
    if lengths == [] || Sum(lengths) == 0 then []
    else
      var safe, total := SafeTarget(lengths, target), Sum(lengths);
      var shares := Floors(lengths, safe, total);
      Topped(shares, Sort(Remainders(lengths, safe, total)), Min(|lengths|, Max(0, safe - Sum(shares))))
  }

  lemma {:induction false} SumPositive(lengths: seq<nat>)
    requires lengths != [] && forall i :: 0 <= i < |lengths| ==> lengths[i] > 0
    ensures Sum(lengths) >= |lengths|
  {
    if |lengths| > 1 {
      SumPositive(lengths[..|lengths| - 1]);
    }
  }

  lemma {:induction false} FloorBounds(safe: nat, length: nat, total: nat)
    requires total > 0 && safe > 0 && length > 0
    ensures safe * length < (Floor(safe, length, total) + 1) * total
    ensures Floor(safe, length, total) * total < safe * length + total
  {
    var q := Quotient(safe * length, total);
    QuotientBounds(safe * length, total);
    assert safe * length > 0;
    assert (q + 1) * total == q * total + total;
  }

  lemma {:induction false} AddBounds(safe: nat, total: nat, lengths: nat, length: nat, shares: nat, share: nat, n: nat)
    requires safe * lengths <= (shares + n) * total && shares * total <= safe * lengths + n * total
    requires safe * length < (share + 1) * total && share * total < safe * length + total
    ensures safe * (lengths + length) < (shares + share + n + 1) * total
    ensures (shares + share) * total < safe * (lengths + length) + (n + 1) * total
  {
    assert safe * (lengths + length) == safe * lengths + safe * length;
    assert (shares + share + n + 1) * total == (shares + n) * total + (share + 1) * total;
    assert (shares + share) * total == shares * total + share * total;
    assert (n + 1) * total == n * total + total;
  }

  lemma {:induction false} FloorsLast(lengths: seq<nat>, safe: nat, total: nat)
    requires total > 0 && lengths != []
    ensures var n := |lengths| - 1;
      && Sum(lengths) == Sum(lengths[..n]) + lengths[n]
      && Sum(Floors(lengths, safe, total)) == Sum(Floors(lengths[..n], safe, total)) + Floor(safe, lengths[n], total)
  {
    var n := |lengths| - 1;
    assert Floors(lengths, safe, total)[..n] == Floors(lengths[..n], safe, total);
  }

  /** Adding up the bounds of the single shares. */
  lemma {:induction false} FloorsBounds(lengths: seq<nat>, safe: nat, total: nat)
    requires total > 0 && safe > 0 && lengths != [] && forall i :: 0 <= i < |lengths| ==> lengths[i] > 0
    ensures safe * Sum(lengths) < (Sum(Floors(lengths, safe, total)) + |lengths|) * total
    ensures Sum(Floors(lengths, safe, total)) * total < safe * Sum(lengths) + |lengths| * total
  {
    var n := |lengths| - 1;
    var sum, shares := Sum(lengths[..n]), Sum(Floors(lengths[..n], safe, total));
    FloorsLast(lengths, safe, total);
    FloorBounds(safe, lengths[n], total);
    if n > 0 {
      FloorsBounds(lengths[..n], safe, total);
    }
    AddBounds(safe, total, sum, lengths[n], shares, Floor(safe, lengths[n], total), n);
  }

  /** A share is the whole part of the proportional share, but at least one; the remainder is what the share leaves of
      it, scaled by the total. */
  lemma {:induction false} ShareMeans(safe: nat, length: nat, total: nat)
    requires total > 0
    ensures var share, exact := Floor(safe, length, total), safe * length;
      && share >= 1 && share * total + Remainder(safe, length, total) == exact
      && (exact >= total ==> 0 <= Remainder(safe, length, total) < total)
      && (exact < total ==> share == 1)
  {
    var q := Quotient(safe * length, total);
    QuotientBounds(safe * length, total);
    assert (q + 1) * total == q * total + total;
    if q == 0 {
      assert q * total == 0;
    } else {
      assert q * total >= total;
    }
  }

  lemma {:induction false} Cancel(a: int, b: int, factor: nat)
    requires factor > 0 && a * factor < b * factor
    ensures a < b
  {
  }

  lemma {:induction false} CancelBounds(safe: nat, total: nat, shares: nat, n: nat)
    requires total > 0 && safe * total < (shares + n) * total && shares * total < safe * total + n * total
    ensures safe - n < shares < safe + n
  {
    Cancel(safe, shares + n, total);
    assert (safe + n) * total == safe * total + n * total;
    Cancel(shares, safe + n, total);
  }

  /** Fewer points are left over than there are segments. */
  lemma {:induction false} SharesBound(lengths: seq<nat>, target: int)
    requires lengths != [] && forall i :: 0 <= i < |lengths| ==> lengths[i] > 0
    ensures Sum(lengths) > 0
    ensures var safe := SafeTarget(lengths, target);
      safe - |lengths| < Sum(Floors(lengths, safe, Sum(lengths))) < safe + |lengths|
  {
    SumPositive(lengths);
    var safe, total := SafeTarget(lengths, target), Sum(lengths);
    FloorsBounds(lengths, safe, total);
    CancelBounds(safe, total, Sum(Floors(lengths, safe, total)), |lengths|);
  }

  ghost predicate Chosen(order: seq<Keyed>, k: nat, i: nat) {
    exists c :: 0 <= c < k && c < |order| && order[c].index == i
  }

  lemma {:induction false} ChosenStep(order: seq<Keyed>, k: nat, i: nat)
    requires 0 < k <= |order| && Distinct(order)
    ensures Chosen(order, k, i) <==> Chosen(order, k - 1, i) || order[k - 1].index == i
    ensures !Chosen(order, k - 1, order[k - 1].index)
  {
  }

  lemma {:induction false} ToppedSum(shares: seq<nat>, order: seq<Keyed>, k: nat)
    requires |order| == |shares| && Distinct(order) && forall x :: x in order ==> x.index < |shares|
    requires k <= |order|
    ensures Sum(Topped(shares, order, k)) == Sum(shares) + k
  {
    if k > 0 {
      ToppedSum(shares, order, k - 1);
      var before, i := Topped(shares, order, k - 1), order[k - 1].index;
      assert order[k - 1] in order;
      SumUpdate(before, i, before[i] + 1);
    }
  }

  lemma {:induction false} ToppedOnce(shares: seq<nat>, order: seq<Keyed>, k: nat)
    requires |order| == |shares| && Distinct(order) && forall x :: x in order ==> x.index < |shares|
    requires k <= |order|
    ensures forall i :: 0 <= i < |shares| ==>
      Topped(shares, order, k)[i] == shares[i] + if Chosen(order, k, i) then 1 else 0
  {
    if k > 0 {
      ToppedOnce(shares, order, k - 1);
      assert order[k - 1] in order;
      forall j | 0 <= j < |shares|
        ensures Topped(shares, order, k)[j] == shares[j] + if Chosen(order, k, j) then 1 else 0
      {
        ChosenStep(order, k, j);
      }
    }
  }

  lemma {:induction false} SharesAt(lengths: seq<nat>, safe: nat, total: nat, i: nat)
    requires total > 0 && i < |lengths|
    ensures Floors(lengths, safe, total)[i] == Floor(safe, lengths[i], total) >= 1
    ensures Remainders(lengths, safe, total)[i] == Keyed(-Remainder(safe, lengths[i], total), i)
  {
    if i < |lengths| - 1 {
      SharesAt(lengths[..|lengths| - 1], safe, total, i);
    }
  }

  lemma {:induction false} RemaindersOrder(lengths: seq<nat>, safe: nat, total: nat)
    requires total > 0
    ensures var order := Sort(Remainders(lengths, safe, total));
      && |order| == |lengths| && Distinct(order) && Ascending(order)
      && (forall x :: x in order ==> x.index < |lengths|)
  {
    SortDistinct(Remainders(lengths, safe, total));
  }

  lemma {:induction false} FloorsPositive(lengths: seq<nat>, safe: nat, total: nat)
    requires total > 0
    ensures forall i :: 0 <= i < |lengths| ==> Floors(lengths, safe, total)[i] >= 1
  {
    forall i | 0 <= i < |lengths|
      ensures Floors(lengths, safe, total)[i] >= 1
    {
      SharesAt(lengths, safe, total, i);
    }
  }

  /** Shares of at least one point, close to the target, and an order to top them up in. */
  ghost predicate Ready(shares: seq<nat>, order: seq<Keyed>, safe: nat) {
    && |order| == |shares| > 0 && Distinct(order) && (forall x :: x in order ==> x.index < |shares|)
    && (forall i :: 0 <= i < |shares| ==> shares[i] >= 1)
    && safe - |shares| < Sum(shares) < safe + |shares|
  }

  lemma {:induction false} ToppedUp(shares: seq<nat>, order: seq<Keyed>, safe: nat)
    requires Ready(shares, order, safe)
    ensures var b := Topped(shares, order, Min(|shares|, Max(0, safe - Sum(shares))));
      (forall i :: 0 <= i < |b| ==> b[i] >= 1) && safe <= Sum(b) <= safe + |shares| - 1
  {
    ToppedOnce(shares, order, Min(|shares|, Max(0, safe - Sum(shares))));
    ToppedSum(shares, order, Min(|shares|, Max(0, safe - Sum(shares))));
  }

  lemma {:induction false} SharesReady(lengths: seq<nat>, target: int)
    requires lengths != [] && forall i :: 0 <= i < |lengths| ==> lengths[i] > 0
    ensures Sum(lengths) > 0
    ensures var safe, total := SafeTarget(lengths, target), Sum(lengths);
      Ready(Floors(lengths, safe, total), Sort(Remainders(lengths, safe, total)), safe)
  {
    SharesBound(lengths, target);
    var safe, total := SafeTarget(lengths, target), Sum(lengths);
    FloorsPositive(lengths, safe, total);
    RemaindersOrder(lengths, safe, total);
  }

  /** Every segment gets at least one point, and together they get the target, or as little more as the
      guaranteed points make necessary: at most one less than the number of segments. */
  lemma {:induction false} BudgetsBound(lengths: seq<nat>, target: int)
    requires lengths != [] && forall i :: 0 <= i < |lengths| ==> lengths[i] > 0
    ensures var b, safe := Budgets(lengths, target), SafeTarget(lengths, target);
      |b| == |lengths| && (forall i :: 0 <= i < |b| ==> b[i] >= 1) && safe <= Sum(b) <= safe + |lengths| - 1
  {
    SharesReady(lengths, target);
    var safe, total := SafeTarget(lengths, target), Sum(lengths);
    var shares, order := Floors(lengths, safe, total), Sort(Remainders(lengths, safe, total));
    assert Budgets(lengths, target) == Topped(shares, order, Min(|shares|, Max(0, safe - Sum(shares))));
    ToppedUp(shares, order, safe);
  }

  lemma {:induction false} SmallKeysFirst(shares: seq<nat>, rs: seq<Keyed>, k: nat, i: nat, j: nat)
    requires |rs| == |shares| && k <= |rs| && i < |rs| && j < |rs|
    requires forall n :: 0 <= n < |rs| ==> rs[n].index == n
    requires forall x :: x in Sort(rs) ==> x.index < |shares|
    ensures var b := Topped(shares, Sort(rs), k);
      shares[i] <= b[i] <= shares[i] + 1 && (b[i] > shares[i] && b[j] == shares[j] ==> rs[i].key <= rs[j].key)
  {
    var order := Sort(rs);
    SortDistinct(rs);
    ToppedOnce(shares, order, k);
    if Chosen(order, k, i) && !Chosen(order, k, j) {
      var c :| 0 <= c < k && c < |order| && order[c].index == i;
      assert rs[j] in rs && order[c] in order;
      assert rs[j] in order;
      var d :| 0 <= d < |order| && order[d] == rs[j];
      assert c <= d;
    }
  }

  /** Beyond its guaranteed share a segment gets at most one point, and one that gets it comes no later in the
      order of falling remainders than one that does not. */
  lemma {:induction false} LargestRemaindersFirst(lengths: seq<nat>, target: int, i: nat, j: nat)
    requires i < |lengths| && j < |lengths| && forall n :: 0 <= n < |lengths| ==> lengths[n] > 0
    ensures Sum(lengths) > 0 && |Budgets(lengths, target)| == |lengths|
    ensures var b, safe, total := Budgets(lengths, target), SafeTarget(lengths, target), Sum(lengths);
      var shares, remainders := Floors(lengths, safe, total), Remainders(lengths, safe, total);
      && shares[i] <= b[i] <= shares[i] + 1
      && (b[i] > shares[i] && b[j] == shares[j] ==> remainders[i].key <= remainders[j].key)
  {
    SumPositive(lengths);
    var safe, total := SafeTarget(lengths, target), Sum(lengths);
    var shares := Floors(lengths, safe, total);
    RemaindersOrder(lengths, safe, total);
    SmallKeysFirst(shares, Remainders(lengths, safe, total), Min(|lengths|, Max(0, safe - Sum(shares))), i, j);
  }

  lemma {:induction false} Wrap(cursor: nat, n: nat)
    requires cursor < n
    ensures cursor % n == cursor
  {
  }

  method TopUp(shares: seq<nat>, order: seq<Keyed>, safe: nat) returns (budgets: seq<nat>)
    requires |order| == |shares| && forall x :: x in order ==> x.index < |shares|
    requires safe - |shares| < Sum(shares)
    ensures budgets == Topped(shares, order, Min(|shares|, Max(0, safe - Sum(shares))))
  {
    budgets := shares;
    var given, cursor := Sum(shares), 0;
    while given < safe && |order| > 0
      invariant given == Sum(shares) + cursor && cursor <= Max(0, safe - Sum(shares))
      invariant cursor <= |order| && budgets == Topped(shares, order, cursor)
      decreases safe - given
    {
      Wrap(cursor, |order|);
      var chosen := order[cursor % |order|];
      assert chosen in order;
      budgets := budgets[chosen.index := budgets[chosen.index] + 1];
      given := given + 1;
      cursor := cursor + 1;
    }
  }

  method AllocateSegmentBudgets(lengths: seq<nat>, target: int) returns (budgets: seq<nat>)
    requires forall i :: 0 <= i < |lengths| ==> lengths[i] > 0
    ensures budgets == Budgets(lengths, target)
  {
    if |lengths| == 0 {
      return [];
    }
    SharesBound(lengths, target);
    var safe, total := SafeTarget(lengths, target), Sum(lengths);
    RemaindersOrder(lengths, safe, total);
    budgets := TopUp(Floors(lengths, safe, total), Sort(Remainders(lengths, safe, total)), safe);
  }

  // ---------------------------------------------------------------- reducing one segment

  function BucketSize(count: nat, target: int): nat
    requires target > 0
  {
    Max(1, Quotient(count + target - 1, target))
  }

  function Total(points: seq<SeriesPoint>): real {
    if points == [] then 0.0 else Total(points[..|points| - 1]) + points[|points| - 1].value
  }

  /** What one bucket becomes: the last timestamp with the last value or the mean. */
  function Picked(bucket: seq<SeriesPoint>, strategy: Strategy): SeriesPoint
    requires bucket != []
  {
    var last := bucket[|bucket| - 1];
    SeriesPoint(last.ts, if strategy.Last? then last.value else Total(bucket) / |bucket| as real)
  }

  /** The totals of two parts add up. */
  lemma {:induction false} TotalAdds(a: seq<SeriesPoint>, b: seq<SeriesPoint>)
    ensures Total(a + b) == Total(a) + Total(b)
    decreases |b|
  {
    if b == [] {
      assert a + b == a;
    } else {
      assert (a + b)[..|a + b| - 1] == a + b[..|b| - 1];
      TotalAdds(a, b[..|b| - 1]);
    }
  }

  lemma {:induction false} TotalOfOne(p: SeriesPoint)
    ensures Total([p]) == p.value
  {
    assert [p][..0] == [];
  }

  /** A bucket becomes its last point, or the mean of its values at the last time. */
  lemma {:induction false} PickedMeans(bucket: seq<SeriesPoint>)
    requires bucket != []
    ensures Picked(bucket, Last) == bucket[|bucket| - 1]
    ensures Picked(bucket, Average).ts == bucket[|bucket| - 1].ts
    ensures Picked(bucket, Average).value * |bucket| as real == Total(bucket)
  {
    var total, count := Total(bucket), |bucket| as real;
    assert total / count * count == total;
  }

  function Reduced(points: seq<SeriesPoint>, size: nat, strategy: Strategy): seq<SeriesPoint>
    requires size > 0
  {
    if points == [] then []
    else [Picked(points[..Min(size, |points|)], strategy)] + Reduced(points[Min(size, |points|)..], size, strategy)
  }

  function Downsampled(points: seq<SeriesPoint>, target: int, strategy: Strategy): seq<SeriesPoint> {
    if target <= 0 || |points| <= target then points
    else Reduced(points, BucketSize(|points|, target), strategy)
  }

  lemma {:induction false} ReducedStep(points: seq<SeriesPoint>, index: nat, size: nat, strategy: Strategy)
    requires size > 0 && index < |points|
    ensures var next := Min(index + size, |points|);
      Reduced(points[index..], size, strategy)
      == [Picked(points[index..next], strategy)] + Reduced(points[next..], size, strategy)
  {
    var rest, next := points[index..], Min(index + size, |points|);
    assert points[index..next] == rest[..Min(size, |rest|)];
    assert rest[Min(size, |rest|)..] == points[next..];
  }

  /** A part of the series, of the given size or shorter at the end, and what it became. */
  predicate IsBucket(points: seq<SeriesPoint>, size: nat, from: nat, until: nat, p: SeriesPoint, strategy: Strategy) {
    && from < until <= |points| && (until == from + size || (until == |points| && until < from + size))
    && p == Picked(points[from..until], strategy)
  }

  lemma {:induction false} PartOfRest(points: seq<SeriesPoint>, cut: nat, from: nat, until: nat)
    requires from <= until <= |points| - cut
    ensures points[cut..][from..until] == points[cut + from..cut + until]
  {
  }

  /** Where a bucket starts. */
  function Start(i: nat, size: nat): nat {
    if i == 0 then 0 else size + Start(i - 1, size)
  }

  /** The buckets: the series in order, cut into parts of the given size, of which only the last may be shorter. */
  lemma {:induction false} ReducedBuckets(points: seq<SeriesPoint>, size: nat, strategy: Strategy, i: nat)
    requires size > 0 && i < |Reduced(points, size, strategy)|
    ensures IsBucket(points, size, Start(i, size), Min(Start(i, size) + size, |points|),
                     Reduced(points, size, strategy)[i], strategy)
    decreases |points|
  {
    if i > 0 {
      var cut, from := Min(size, |points|), Start(i - 1, size);
      var rest := points[cut..];
      assert Reduced(points, size, strategy)[i] == Reduced(rest, size, strategy)[i - 1];
      ReducedBuckets(rest, size, strategy, i - 1);
      PartOfRest(points, cut, from, Min(from + size, |rest|));
    }
  }

  /** And the last of them ends the series. */
  lemma {:induction false} LastBucket(points: seq<SeriesPoint>, size: nat, strategy: Strategy)
    requires size > 0 && points != []
    ensures var n := |Reduced(points, size, strategy)|;
      n > 0 && Start(n - 1, size) < |points| <= Start(n, size)
  {
    var rest := points[Min(size, |points|)..];
    if rest != [] {
      LastBucket(rest, size, strategy);
    } else {
      assert Start(1, size) == size;
    }
  }

  /** The bucket size is the least with which the target covers the series. */
  lemma {:induction false} BucketSizeLeast(count: nat, target: int)
    requires target > 0 && count > 0
    ensures BucketSize(count, target) * target >= count
    ensures (BucketSize(count, target) - 1) * target < count
  {
    BucketsCover(count, target);
    var q := Quotient(count + target - 1, target);
    QuotientBounds(count + target - 1, target);
    assert (q - 1) * target == q * target - target;
  }

  method DownsampleSeries(points: seq<SeriesPoint>, target: int, strategy: Strategy) returns (reduced: seq<SeriesPoint>)
    ensures reduced == Downsampled(points, target, strategy)
  {
    if target <= 0 || |points| <= target {
      return points;
    }
    reduced := ReduceBuckets(points, BucketSize(|points|, target), strategy);
  }

  method ReduceBuckets(points: seq<SeriesPoint>, size: nat, strategy: Strategy) returns (reduced: seq<SeriesPoint>)
    requires size > 0
    ensures reduced == Reduced(points, size, strategy)
  {
    reduced := [];
    var index := 0;
    assert points[0..] == points;
    while index < |points|
      invariant 0 <= index <= |points|
      invariant Reduced(points, size, strategy) == reduced + Reduced(points[index..], size, strategy)
    {
      var next := Min(index + size, |points|);
      ReducedStep(points, index, size, strategy);
      ghost var rest := Reduced(points[next..], size, strategy);
      var point := Picked(points[index..next], strategy);
      assert reduced + ([point] + rest) == (reduced + [point]) + rest;
      reduced := reduced + [point];
      index := next;
    }
    assert points[|points|..] == [];
  }

  lemma {:induction false} ReducedCount(points: seq<SeriesPoint>, size: nat, strategy: Strategy)
    requires size > 0 && points != []
    ensures Reduced(points, size, strategy) != []
    ensures (|Reduced(points, size, strategy)| - 1) * size < |points|
  {
    var rest := points[Min(size, |points|)..];
    if rest != [] {
      ReducedCount(rest, size, strategy);
      var m := |Reduced(rest, size, strategy)|;
      assert m * size == (m - 1) * size + size;
    }
  }

  lemma {:induction false} BucketsCover(count: nat, target: int)
    requires target > 0
    ensures count <= BucketSize(count, target) * target
  {
    var q := Quotient(count + target - 1, target);
    QuotientBounds(count + target - 1, target);
    assert (q + 1) * target == q * target + target;
  }

  lemma {:induction false} CountWithin(count: nat, size: nat, length: nat, target: nat)
    requires count > 0 && size > 0 && (count - 1) * size < length <= size * target
    ensures count <= target
  {
    Cancel(count - 1, target, size);
  }

  /** A segment reduced to a positive budget has at most that many points and is empty only if it was. */
  lemma {:induction false} WithinTarget(points: seq<SeriesPoint>, target: int, strategy: Strategy)
    requires target > 0
    ensures |Downsampled(points, target, strategy)| <= target
    ensures Downsampled(points, target, strategy) == [] <==> points == []
  {
    if |points| > target {
      var size := BucketSize(|points|, target);
      ReducedCount(points, size, strategy);
      BucketsCover(|points|, target);
      CountWithin(|Reduced(points, size, strategy)|, size, |points|, target);
    }
  }

  /** The final point of a series survives: its timestamp always, its value under "last". */
  lemma {:induction false} ReducedKeepsFinal(points: seq<SeriesPoint>, size: nat, strategy: Strategy)
    requires size > 0 && points != []
    ensures Reduced(points, size, strategy) != []
    ensures var r, final := Reduced(points, size, strategy), points[|points| - 1];
      r[|r| - 1].ts == final.ts && (strategy.Last? ==> r[|r| - 1] == final)
  {
    var rest := points[Min(size, |points|)..];
    if rest != [] {
      ReducedKeepsFinal(rest, size, strategy);
    }
  }

  lemma {:induction false} KeepsFinal(points: seq<SeriesPoint>, target: int, strategy: Strategy)
    requires points != []
    ensures Downsampled(points, target, strategy) != []
    ensures var r, final := Downsampled(points, target, strategy), points[|points| - 1];
      r[|r| - 1].ts == final.ts && (strategy.Last? ==> r[|r| - 1] == final)
  {
    if target > 0 && |points| > target {
      ReducedKeepsFinal(points, BucketSize(|points|, target), strategy);
    }
  }

  lemma {:induction false} TotalBetween(points: seq<SeriesPoint>, low: real, high: real)
    requires forall p :: p in points ==> low <= p.value <= high
    ensures low * |points| as real <= Total(points) <= high * |points| as real
  {
    if points != [] {
      var n := |points| - 1;
      TotalBetween(points[..n], low, high);
      assert points[n] in points;
      assert low * (n + 1) as real == low * n as real + low;
      assert high * (n + 1) as real == high * n as real + high;
    }
  }

  /** Reducing never leaves the range of the values it was given, whichever strategy is used. */
  lemma {:induction false} ReducedBetween(points: seq<SeriesPoint>, size: nat, strategy: Strategy, low: real,
                                          high: real)
    requires size > 0 && forall p :: p in points ==> low <= p.value <= high
    ensures forall p :: p in Reduced(points, size, strategy) ==> low <= p.value <= high
  {
    if points != [] {
      var cut := Min(size, |points|);
      ReducedBetween(points[cut..], size, strategy, low, high);
      TotalBetween(points[..cut], low, high);
      MeanBetween(Total(points[..cut]), cut, low, high);
      assert points[cut - 1] in points;
    }
  }

  lemma {:induction false} CancelReal(a: real, b: real, factor: real)
    requires factor > 0.0 && a * factor <= b * factor
    ensures a <= b
  {
  }

  lemma {:induction false} MeanBetween(total: real, count: nat, low: real, high: real)
    requires count > 0 && low * count as real <= total <= high * count as real
    ensures low <= total / count as real <= high
  {
    var mean := total / count as real;
    assert mean * count as real == total;
    CancelReal(low, mean, count as real);
    CancelReal(mean, high, count as real);
  }

  // ---------------------------------------------------------------- putting segments together

  function NonEmpty(segments: seq<seq<SeriesPoint>>): (r: seq<seq<SeriesPoint>>)
    ensures |r| <= |segments| && forall i :: 0 <= i < |r| ==> r[i] != []
  {
    if segments == [] then []
    else
      var n := |segments| - 1;
      NonEmpty(segments[..n]) + if segments[n] == [] then [] else [segments[n]]
  }

  /** The places of the segments that are not empty, in order. */
  function KeptPlaces(segments: seq<seq<SeriesPoint>>, n: nat): (places: seq<nat>)
    requires n <= |segments|
    ensures forall k: nat :: k in places <==> k < n && segments[k] != []
    ensures forall i, k :: 0 <= i < k < |places| ==> places[i] < places[k]
  {
    if n == 0 then []
    else
      var before := KeptPlaces(segments, n - 1);
      assert forall k :: 0 <= k < |before| ==> before[k] in before;
      before + if segments[n - 1] != [] then [n - 1] else []
  }

  /** Exactly the segments with points are kept, in order. */
  lemma {:induction false} NonEmptyAre(segments: seq<seq<SeriesPoint>>, n: nat)
    requires n <= |segments|
    ensures var places, kept := KeptPlaces(segments, n), NonEmpty(segments[..n]);
      |kept| == |places| && forall k :: 0 <= k < |places| ==> places[k] in places && kept[k] == segments[places[k]]
  {
    if n > 0 {
      assert segments[..n][..n - 1] == segments[..n - 1];
      NonEmptyAre(segments, n - 1);
    }
  }

  function Lengths(segments: seq<seq<SeriesPoint>>): (r: seq<nat>)
    ensures |r| == |segments| && forall i :: 0 <= i < |r| ==> r[i] == |segments[i]|
  {
    if segments == [] then [] else Lengths(segments[..|segments| - 1]) + [|segments[|segments| - 1]|]
  }

  function Readings(points: seq<SeriesPoint>): (r: seq<ChartPoint>)
    ensures |r| == |points| && forall i :: 0 <= i < |r| ==> r[i] == Reading(points[i].ts, points[i].value)
  {
    if points == [] then []
    else Readings(points[..|points| - 1]) + [Reading(points[|points| - 1].ts, points[|points| - 1].value)]
  }

  /** The chart gets a separator between two groups of points. */
  function Appended(chart: seq<ChartPoint>, points: seq<SeriesPoint>): seq<ChartPoint> {
    if points == [] then chart
    else if chart == [] then Readings(points)
    else chart + [Separator(Max(points[0].ts - 1, chart[|chart| - 1].ts + 1))] + Readings(points)
  }

  /** Between two groups there is one separator, after the last point and before the next where there is room. */
  lemma {:induction false} AppendedMeans(chart: seq<ChartPoint>, points: seq<SeriesPoint>)
    requires chart != [] && points != []
    ensures var r, last := Appended(chart, points), chart[|chart| - 1].ts;
      && |r| == |chart| + 1 + |points| && r[..|chart|] == chart && r[|chart|].Separator?
      && (forall i :: 0 <= i < |points| ==> r[|chart| + 1 + i] == Reading(points[i].ts, points[i].value))
      && r[|chart|].ts == (if points[0].ts > last + 1 then points[0].ts - 1 else last + 1)
  {
  }

  function Joined(segments: seq<seq<SeriesPoint>>, budgets: seq<nat>, strategy: Strategy): seq<ChartPoint>
    requires |budgets| == |segments|
  {
    if segments == [] then []
    else
      var n := |segments| - 1;
      Appended(Joined(segments[..n], budgets[..n], strategy), Downsampled(segments[n], budgets[n], strategy))
  }

  function Merged(segments: seq<seq<SeriesPoint>>, target: int, strategy: Strategy): seq<ChartPoint> {
    var kept := NonEmpty(segments);
    var budgets := Budgets(Lengths(kept), target);
    if |budgets| != |kept| then [] else Joined(kept, budgets, strategy)
  }

  lemma {:induction false} JoinedNext(segments: seq<seq<SeriesPoint>>, budgets: seq<nat>, strategy: Strategy, i: nat)
    requires |budgets| == |segments| && i < |segments|
    ensures Joined(segments[..i + 1], budgets[..i + 1], strategy)
            == Appended(Joined(segments[..i], budgets[..i], strategy), Downsampled(segments[i], budgets[i], strategy))
  {
    assert segments[..i + 1][..i] == segments[..i] && budgets[..i + 1][..i] == budgets[..i];
  }

  method AppendGroup(chart: seq<ChartPoint>, reduced: seq<SeriesPoint>) returns (merged: seq<ChartPoint>)
    ensures merged == Appended(chart, reduced)
  {
    merged := chart;
    if |reduced| == 0 {
      return;
    }
    if |merged| > 0 {
      merged := merged + [Separator(Max(reduced[0].ts - 1, merged[|merged| - 1].ts + 1))];
    }
    merged := merged + Readings(reduced);
  }

  method JoinSegments(segments: seq<seq<SeriesPoint>>, budgets: seq<nat>, strategy: Strategy)
    returns (merged: seq<ChartPoint>)
    requires |budgets| == |segments|
    ensures merged == Joined(segments, budgets, strategy)
  {
    merged := [];
    var i := 0;
    while i < |segments|
      invariant 0 <= i <= |segments| && merged == Joined(segments[..i], budgets[..i], strategy)
    {
      JoinedNext(segments, budgets, strategy, i);
      var reduced := DownsampleSeries(segments[i], budgets[i], strategy);
      merged := AppendGroup(merged, reduced);
      i := i + 1;
    }
    assert segments[..i] == segments && budgets[..i] == budgets;
  }

  method MergeSegmentedSeries(segments: seq<seq<SeriesPoint>>, target: int, strategy: Strategy)
    returns (merged: seq<ChartPoint>)
    ensures merged == Merged(segments, target, strategy)
  {
    var kept := NonEmpty(segments);
    MergedIsJoined(segments, target, strategy);
    if |kept| == 0 {
      return [];
    }
    var budgets := AllocateSegmentBudgets(Lengths(kept), target);
    merged := JoinSegments(kept, budgets, strategy);
  }

  /** The points of a chart without its separators. */
  function Values(chart: seq<ChartPoint>): seq<SeriesPoint> {
    if chart == [] then []
    else
      var n := |chart| - 1;
      Values(chart[..n]) + if chart[n].Separator? then [] else [SeriesPoint(chart[n].ts, chart[n].value)]
  }

  lemma {:induction false} ValuesAppend(chart: seq<ChartPoint>, points: seq<SeriesPoint>)
    ensures Values(chart + Readings(points)) == Values(chart) + points
  {
    if points == [] {
      assert chart + Readings(points) == chart;
    } else {
      var n := |points| - 1;
      ValuesAppend(chart, points[..n]);
      assert (chart + Readings(points))[..|chart| + n] == chart + Readings(points[..n]);
      assert points == points[..n] + [points[n]];
    }
  }

  /** Separators aside, appending a group adds exactly its points. */
  lemma {:induction false} ValuesAppended(chart: seq<ChartPoint>, points: seq<SeriesPoint>)
    ensures Values(Appended(chart, points)) == Values(chart) + points
  {
    if points != [] && chart == [] {
      ValuesAppend([], points);
      assert [] + Readings(points) == Readings(points);
    } else if points != [] {
      var sep := [Separator(Max(points[0].ts - 1, chart[|chart| - 1].ts + 1))];
      ValuesAppend(chart + sep, points);
      SeparatorAddsNothing(chart, sep[0]);
    }
  }

  lemma {:induction false} SeparatorAddsNothing(chart: seq<ChartPoint>, sep: ChartPoint)
    requires sep.Separator?
    ensures Values(chart + [sep]) == Values(chart)
  {
    assert (chart + [sep])[..|chart|] == chart;
  }

  lemma {:induction false} AppendedLast(chart: seq<ChartPoint>, points: seq<SeriesPoint>)
    requires points != []
    ensures Appended(chart, points) != []
    ensures var r, final := Appended(chart, points), points[|points| - 1];
      r[|r| - 1] == Reading(final.ts, final.value)
  {
  }

  lemma {:induction false} JoinedValues(segments: seq<seq<SeriesPoint>>, budgets: seq<nat>, strategy: Strategy)
    requires |budgets| == |segments| > 0
    ensures var n := |segments| - 1;
      Values(Joined(segments, budgets, strategy))
      == Values(Joined(segments[..n], budgets[..n], strategy)) + Downsampled(segments[n], budgets[n], strategy)
  {
    var n := |segments| - 1;
    ValuesAppended(Joined(segments[..n], budgets[..n], strategy), Downsampled(segments[n], budgets[n], strategy));
  }

  lemma {:induction false} JoinedCount(segments: seq<seq<SeriesPoint>>, budgets: seq<nat>, strategy: Strategy)
    requires |budgets| == |segments| && forall i :: 0 <= i < |budgets| ==> budgets[i] > 0
    ensures |Values(Joined(segments, budgets, strategy))| <= Sum(budgets)
  {
    if segments != [] {
      var n := |segments| - 1;
      JoinedCount(segments[..n], budgets[..n], strategy);
      WithinTarget(segments[n], budgets[n], strategy);
      JoinedValues(segments, budgets, strategy);
    }
  }

  lemma {:induction false} MergedIsJoined(segments: seq<seq<SeriesPoint>>, target: int, strategy: Strategy)
    ensures var kept := NonEmpty(segments);
      var budgets := Budgets(Lengths(kept), target);
      |budgets| == |kept| && Merged(segments, target, strategy) == Joined(kept, budgets, strategy)
      && forall i :: 0 <= i < |budgets| ==> budgets[i] > 0
  {
    var kept := NonEmpty(segments);
    if kept != [] {
      BudgetsBound(Lengths(kept), target);
    }
  }

  /** However many segments there are, a chart has at most one point per segment, less one, beyond its target. */
  lemma {:induction false} ChartWithinBudget(segments: seq<seq<SeriesPoint>>, target: int, strategy: Strategy)
    requires NonEmpty(segments) != []
    ensures var n := |NonEmpty(segments)|;
      |Values(Merged(segments, target, strategy))| <= Max(target, n) + n - 1
  {
    var kept := NonEmpty(segments);
    MergedIsJoined(segments, target, strategy);
    BudgetsBound(Lengths(kept), target);
    JoinedCount(kept, Budgets(Lengths(kept), target), strategy);
  }

  ghost predicate EndsAt(chart: seq<ChartPoint>, segment: seq<SeriesPoint>, strategy: Strategy)
    requires segment != []
  {
    && chart != []
    && var end, final := chart[|chart| - 1], segment[|segment| - 1];
      end.Reading? && end.ts == final.ts && (strategy.Last? ==> end.value == final.value)
  }

  lemma {:induction false} AppendedEnds(chart: seq<ChartPoint>, points: seq<SeriesPoint>, segment: seq<SeriesPoint>,
                                        strategy: Strategy)
    requires points != [] && segment != []
    requires var end, final := points[|points| - 1], segment[|segment| - 1];
      end.ts == final.ts && (strategy.Last? ==> end == final)
    ensures EndsAt(Appended(chart, points), segment, strategy)
  {
    AppendedLast(chart, points);
  }

  lemma {:induction false} JoinedEnds(segments: seq<seq<SeriesPoint>>, budgets: seq<nat>, strategy: Strategy)
    requires |budgets| == |segments| > 0 && segments[|segments| - 1] != []
    ensures EndsAt(Joined(segments, budgets, strategy), segments[|segments| - 1], strategy)
  {
    var n := |segments| - 1;
    KeepsFinal(segments[n], budgets[n], strategy);
    AppendedEnds(Joined(segments[..n], budgets[..n], strategy), Downsampled(segments[n], budgets[n], strategy),
                 segments[n], strategy);
  }

  /** The chart ends where the last non-empty segment ends, and is empty only if all segments are. */
  lemma {:induction false} ChartEnds(segments: seq<seq<SeriesPoint>>, target: int, strategy: Strategy)
    ensures Merged(segments, target, strategy) == [] <==> NonEmpty(segments) == []
    ensures NonEmpty(segments) != [] ==>
      EndsAt(Merged(segments, target, strategy), NonEmpty(segments)[|NonEmpty(segments)| - 1], strategy)
  {
    var kept := NonEmpty(segments);
    MergedIsJoined(segments, target, strategy);
    if kept != [] {
      JoinedEnds(kept, Budgets(Lengths(kept), target), strategy);
    }
  }
}
