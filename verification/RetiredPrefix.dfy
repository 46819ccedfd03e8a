/**
 The contiguous prefix of closed sequences: the greatest w such that every
 sequence 1..w is closed. The server computes it by scanning the closed
 sequences of a node in ascending order.
 */
module RetiredPrefix {

  ghost predicate IsPrefix(closed: set<int>, w: nat) {
    && (forall s :: 1 <= s <= w ==> s in closed)
    && w + 1 !in closed
  }

  lemma PrefixUnique(closed: set<int>, v: nat, w: nat)
    requires IsPrefix(closed, v) && IsPrefix(closed, w)
    ensures v == w
  {
    assert v < w ==> v + 1 in closed;
    assert w < v ==> w + 1 in closed;
  }

  function PrefixFrom(rest: set<int>, w: nat): (r: nat)
    ensures w <= r
    ensures forall s :: w < s <= r ==> s in rest
    ensures r + 1 !in rest || r + 1 <= w
    decreases |rest|
  {
    if w + 1 in rest then
      var r := PrefixFrom(rest - {w + 1}, w + 1);
      assert forall s {:trigger s in rest} :: w + 1 < s <= r ==> s in rest - {w + 1};
      r
    else w
  }

  function Prefix(closed: set<int>): (w: nat)
    ensures IsPrefix(closed, w)
  {
    PrefixFrom(closed, 0)
  }

  /** Closing more sequences never lowers the prefix. */
  lemma PrefixMonotone(smaller: set<int>, larger: set<int>)
    requires smaller <= larger
    ensures Prefix(smaller) <= Prefix(larger)
  {
    assert Prefix(larger) < Prefix(smaller) ==> Prefix(larger) + 1 in smaller;
  }

  lemma Element<T>(s: set<T>) returns (x: T)
    requires s != {}
    ensures x in s
  {
    x :| x in s;
  }

  lemma {:induction false} HasMinimum(s: set<int>)
    requires s != {}
    ensures exists m :: m in s && forall x :: x in s ==> m <= x
  {
    var x := Element(s);
    if s != {x} {
      var rest := s - {x};
      HasMinimum(rest);
      var m :| m in rest && forall y :: y in rest ==> m <= y;
      var least := if x <= m then x else m;
      assert forall y :: y in s ==> y == x || y in rest;
      assert least in s && forall y :: y in s ==> least <= y;
    }
  }

  ghost predicate StrictlyAscending(rows: seq<int>) {
    forall i, j :: 0 <= i < j < |rows| ==> rows[i] < rows[j]
  }

  /** The rows of a UNION query ordered by sequence: each closed sequence once, ascending. */
  function Ascending(s: set<int>): (rows: seq<int>)
    ensures StrictlyAscending(rows)
    ensures forall x :: x in rows <==> x in s
    decreases |s|
  {
    if s == {} then [] else
      HasMinimum(s);
      var m :| m in s && forall x :: x in s ==> m <= x;
      [m] + Ascending(s - {m})
  }

  /** The scan over the ordered rows. */
  method ScanPrefix(rows: seq<int>, ghost closed: set<int>) returns (watermark: nat)
    requires StrictlyAscending(rows)
    requires forall x :: x in rows <==> x in closed
    requires forall x :: x in closed ==> x > 0
    ensures watermark == Prefix(closed)
  {
    watermark := 0;
    var expected := 1;
    var i := 0;
    while i < |rows|
      invariant 0 <= i <= |rows|
      invariant expected == watermark + 1
      invariant forall s :: 1 <= s <= watermark ==> s in closed
      invariant forall k :: 0 <= k < i ==> rows[k] <= watermark
    {
      var row := rows[i];
      if row == expected {
        watermark := row;
        expected := expected + 1;
      } else if row > expected {
        break;
      }
      i := i + 1;
    }
    assert forall k :: 0 <= k < |rows| ==> rows[k] != watermark + 1;
    PrefixUnique(closed, watermark, Prefix(closed));
  }
}
