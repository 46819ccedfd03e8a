/**
 Stable sorting of keyed items, as the array sort of the dashboard does it, and what the item at a given rank
 means for the unsorted list.
 */
module StableSort {

  datatype Keyed = Keyed(key: int, index: nat)

  predicate Ascending(s: seq<Keyed>) {
    forall i, j :: 0 <= i < j < |s| ==> s[i].key <= s[j].key
  }

  predicate Distinct(s: seq<Keyed>) {
    forall i, j :: 0 <= i < j < |s| ==> s[i].index != s[j].index
  }

  /** Places an item before the first one whose key is not smaller. */
  function Insert(x: Keyed, s: seq<Keyed>): (r: seq<Keyed>)
    requires Ascending(s)
    ensures |r| == |s| + 1 && Ascending(r)
    ensures forall y :: y in r <==> y == x || y in s
  {
    if s == [] || x.key <= s[0].key then [x] + s
    else
      var rest := Insert(x, s[1..]);
      assert forall y :: y in s <==> y == s[0] || y in s[1..];
      assert forall i :: 0 <= i < |rest| ==> rest[i] in rest;
      [s[0]] + rest
  }

  function Sort(s: seq<Keyed>): (r: seq<Keyed>)
    ensures |r| == |s| && Ascending(r)
    ensures forall y :: y in r <==> y in s
  {
    if s == [] then []
    else
      assert forall y :: y in s <==> y == s[0] || y in s[1..];
      Insert(s[0], Sort(s[1..]))
  }

  lemma {:induction false} InsertDistinct(x: Keyed, s: seq<Keyed>)
    requires Ascending(s) && Distinct(s) && forall y :: y in s ==> y.index != x.index
    ensures Distinct(Insert(x, s))
  {
    if s != [] && s[0].key < x.key {
      InsertDistinct(x, s[1..]);
      var rest := Insert(x, s[1..]);
      forall j | 0 <= j < |rest|
        ensures rest[j].index != s[0].index
      {
        assert rest[j] in rest;
      }
    }
  }

  /** Sorting loses and repeats nothing. */
  lemma {:induction false} SortDistinct(s: seq<Keyed>)
    requires Distinct(s)
    ensures Distinct(Sort(s))
  {
    if s != [] {
      SortDistinct(s[1..]);
      InsertDistinct(s[0], Sort(s[1..]));
    }
  }

  /** How many keys are at most a bound. */
  function UpTo(s: seq<Keyed>, bound: int): nat {
    if s == [] then 0 else (if s[0].key <= bound then 1 else 0) + UpTo(s[1..], bound)
  }

  lemma {:induction false} InsertCounts(x: Keyed, s: seq<Keyed>, bound: int)
    requires Ascending(s)
    ensures UpTo(Insert(x, s), bound) == UpTo(s, bound) + if x.key <= bound then 1 else 0
  {
    if s == [] || x.key <= s[0].key {
      assert ([x] + s)[1..] == s;
    } else {
      InsertCounts(x, s[1..], bound);
      assert ([s[0]] + Insert(x, s[1..]))[1..] == Insert(x, s[1..]);
    }
  }

  lemma {:induction false} SortCounts(s: seq<Keyed>, bound: int)
    ensures UpTo(Sort(s), bound) == UpTo(s, bound)
  {
    if s != [] {
      SortCounts(s[1..], bound);
      InsertCounts(s[0], Sort(s[1..]), bound);
    }
  }

  lemma {:induction false} RankInAscending(s: seq<Keyed>, k: nat)
    requires Ascending(s) && k < |s|
    ensures UpTo(s, s[k].key - 1) <= k < UpTo(s, s[k].key)
  {
    if k == 0 {
      NoneUpTo(s, s[0].key - 1);
    } else {
      RankInAscending(s[1..], k - 1);
    }
  }

  lemma {:induction false} NoneUpTo(s: seq<Keyed>, bound: int)
    requires Ascending(s) && (s != [] ==> bound < s[0].key)
    ensures UpTo(s, bound) == 0
  {
    if s != [] {
      NoneUpTo(s[1..], bound);
    }
  }

  lemma {:induction false} UpToMonotone(s: seq<Keyed>, low: int, high: int)
    requires low <= high
    ensures UpTo(s, low) <= UpTo(s, high)
  {
    if s != [] {
      UpToMonotone(s[1..], low, high);
    }
  }

  /** The key at rank k of the sorted list is the one value with at most k keys below it and more than k up to it. */
  lemma RankSelects(s: seq<Keyed>, k: nat, value: int)
    requires k < |s|
    ensures Sort(s)[k].key == value <==> UpTo(s, value - 1) <= k < UpTo(s, value)
  {
    var found := Sort(s)[k].key;
    RankInAscending(Sort(s), k);
    SortCounts(s, found);
    SortCounts(s, found - 1);
    if found < value {
      UpToMonotone(s, found, value - 1);
    } else if value < found {
      UpToMonotone(s, value, found - 1);
    }
  }
}
