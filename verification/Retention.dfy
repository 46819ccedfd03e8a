/**
 Bounded retention of target rows: rows past the retention age, and rows
 beyond the newest 1024 of a node, are deleted with their sequences retired.
 The rows of a query that asks for no order come in any order.
 */
module Retention {
  import opened Protocol
  import opened NodeTables
  import opened NodeInvariants
  import opened UpdateStore

  const ROWS_PER_NODE := 1024
  const RETENTION_SECONDS := 180 * 24 * 3600

  predicate Aged(t: Target, cutoff: int) {
    t.updatedAt < cutoff && !Protected(t)
  }

  function Unprotected(r: NodeRows): set<JobId> {
    set j | j in r.targets && !Protected(r.targets[j])
  }

  /** Delete rows one after the other. */
  function PruneAll(r: NodeRows, js: seq<JobId>): NodeRows
    requires forall j :: j in js ==> j in r.targets
    decreases |js|
  {
    if js == [] then r
    else PruneRow(PruneAll(r, js[..|js| - 1]), js[|js| - 1], r.targets[js[|js| - 1]].number)
  }

  lemma PruneRowMeans(r: NodeRows, j: JobId, number: int)
    ensures var r' := PruneRow(r, j, number);
      r'.targets == r.targets - {j} && r'.retirements == r.retirements + if number > 0 then {number} else {}
  {
  }

  lemma SetOfLast(js: seq<JobId>)
    requires js != []
    ensures JobSet(js) == JobSet(js[..|js| - 1]) + {js[|js| - 1]}
  {
    assert js == js[..|js| - 1] + [js[|js| - 1]];
  }

  lemma RemoveBoth(targets: map<JobId, Target>, gone: set<JobId>, last: JobId)
    ensures targets - gone - {last} == targets - (gone + {last})
  {
  }

  /** Exactly the listed rows are gone. */
  lemma {:induction false} PruneAllDeletes(r: NodeRows, js: seq<JobId>)
    requires forall j :: j in js ==> j in r.targets
    ensures PruneAll(r, js).targets == r.targets - JobSet(js)
    decreases |js|
  {
    if js == [] {
      assert JobSet(js) == {};
    } else {
      var front, last := js[..|js| - 1], js[|js| - 1];
      PruneAllDeletes(r, front);
      PruneRowMeans(PruneAll(r, front), last, r.targets[last].number);
      SetOfLast(js);
      RemoveBoth(r.targets, JobSet(front), last);
    }
  }

  /** Every deleted row leaves its sequence among the retirements, and no retirement is lost. */
  lemma {:induction false} PruneAllRetires(r: NodeRows, js: seq<JobId>)
    requires forall j :: j in js ==> j in r.targets
    ensures r.retirements <= PruneAll(r, js).retirements
    ensures forall j :: j in js && r.targets[j].number > 0 ==> r.targets[j].number in PruneAll(r, js).retirements
    decreases |js|
  {
    if js != [] {
      var front, last := js[..|js| - 1], js[|js| - 1];
      PruneAllRetires(r, front);
      PruneRowMeans(PruneAll(r, front), last, r.targets[last].number);
      assert forall j :: j in js ==> j in front || j == last;
    }
  }

  lemma {:induction false} PruneAllMeans(r: NodeRows, js: seq<JobId>)
    requires forall j :: j in js ==> j in r.targets
    ensures PruneAll(r, js).targets == r.targets - JobSet(js)
    ensures r.retirements <= PruneAll(r, js).retirements
    ensures forall j :: j in js && r.targets[j].number > 0 ==> r.targets[j].number in PruneAll(r, js).retirements
  {
    PruneAllDeletes(r, js);
    PruneAllRetires(r, js);
  }

  /** Deleting rows does not disturb the protocol. */
  lemma {:induction false} PruneAllEvolves(r: NodeRows, js: seq<JobId>)
    requires DistinctJobs(js) && forall j :: j in js ==> j in r.targets
    ensures Evolves(r, PruneAll(r, js))
    decreases |js|
  {
    if js != [] {
      var front, last := js[..|js| - 1], js[|js| - 1];
      PruneAllEvolves(r, front);
      PruneAllMeans(r, front);
      assert last !in front;
      PruneRowEvolves(PruneAll(r, front), last);
      EvolvesTransitive(r, PruneAll(r, front), PruneAll(r, js));
    }
  }

  lemma PruneRowEvolves(r: NodeRows, j: JobId)
    requires j in r.targets
    ensures Evolves(r, PruneRow(r, j, r.targets[j].number))
  {
    if Sound(r) {
      PruneKeeps(r, j, 0);
    }
  }

  method DeleteRows(store: Store, n: NodeId, js: seq<JobId>)
    requires forall j :: j in js ==> j in store.Rows(n).targets
    modifies store`nodes
    ensures store.nodes == old(store.nodes)[n := PruneAll(old(store.Rows(n)), js)]
  {
    var rows := store.Rows(n);
    store.nodes := store.nodes[n := rows];
    for i := 0 to |js|
      invariant store.nodes == old(store.nodes)[n := PruneAll(rows, js[..i])]
    {
      assert js[..i + 1][..i] == js[..i];
      var number := rows.targets[js[i]].number;
      var tx := store.Rows(n);
      if number > 0 {
        tx := tx.(retirements := tx.retirements + {number});
      }
      tx := tx.(targets := tx.targets - {js[i]});
      tx := AdvanceRetiredWatermarkTx(tx);
      store.nodes := store.nodes[n := tx];
    }
    assert js[..|js|] == js;
  }

  /** What retention promises for a node's rows. */
  ghost predicate Retained(r: NodeRows, r': NodeRows, cutoff: int) {
    && (forall j :: j in r'.targets ==> j in r.targets && r'.targets[j] == r.targets[j])
    && (forall j :: j in r'.targets ==> !Aged(r'.targets[j], cutoff))
    && |Unprotected(r')| <= ROWS_PER_NODE
    && (forall j :: j in r.targets && j !in r'.targets ==>
          && !Protected(r.targets[j])
          && (r.targets[j].number > 0 ==> r.targets[j].number in r'.retirements)
          && (Aged(r.targets[j], cutoff) || |Unprotected(r')| == ROWS_PER_NODE)
          && forall k :: k in Unprotected(r') ==> r.targets[j].updatedAt <= r'.targets[k].updatedAt)
  }

  lemma {:induction false} FirstCount(js: seq<JobId>, n: nat)
    requires DistinctJobs(js) && n <= |js|
    ensures |JobSet(js[..n])| == n
  {
    if n > 0 {
      assert forall k :: 0 <= k < n - 1 ==> js[k] != js[n - 1];
      assert js[n - 1] !in js[..n - 1];
      FirstCount(js, n - 1);
      assert JobSet(js[..n]) == JobSet(js[..n - 1]) + {js[n - 1]};
    }
  }

  /** The rows left by the age query and then the row cap. */
  function Detail(r: NodeRows, aged: seq<JobId>, js: seq<JobId>): NodeRows
    requires forall j :: j in aged ==> j in r.targets
    requires forall j :: j in js ==> j in PruneAll(r, aged).targets
  {
    var r1 := PruneAll(r, aged);
    if |js| > ROWS_PER_NODE then PruneAll(r1, js[..|js| - ROWS_PER_NODE]) else r1
  }

  /** The queries behind a deletion: the aged rows, then the unprotected rest by age. */
  ghost predicate Queried(r: NodeRows, aged: seq<JobId>, js: seq<JobId>, cutoff: int) {
    && DistinctJobs(aged) && (forall j :: j in aged <==> j in r.targets && Aged(r.targets[j], cutoff))
    && DistinctJobs(js) && JobSet(js) == Unprotected(PruneAll(r, aged)) && |js| == |Unprotected(PruneAll(r, aged))|
    && Ordered(PruneAll(r, aged), js, ByAge)
  }

  lemma OldestFirst(r: NodeRows, js: seq<JobId>, n: nat, j: JobId, k: JobId)
    requires JobSet(js) == Unprotected(r) && Ordered(r, js, ByAge) && n <= |js|
    requires j in js[..n] && k in Unprotected(r) && k !in js[..n]
    ensures j in r.targets && r.targets[j].updatedAt <= r.targets[k].updatedAt
  {
    assert k in JobSet(js);
    var a :| 0 <= a < n && js[..n][a] == j;
    var b :| 0 <= b < |js| && js[b] == k;
    assert js[a] in JobSet(js);
    assert forall i :: 0 <= i < n ==> js[i] in js[..n];
  }

  lemma ExcessMeans(r1: NodeRows, js: seq<JobId>, n: nat)
    requires DistinctJobs(js) && JobSet(js) == Unprotected(r1) && Ordered(r1, js, ByAge)
    requires n <= |js| == |Unprotected(r1)|
    ensures forall j :: j in js[..n] ==> j in r1.targets
    ensures PruneAll(r1, js[..n]).targets == r1.targets - JobSet(js[..n])
    ensures |Unprotected(PruneAll(r1, js[..n]))| == |js| - n
    ensures forall j, k :: j in js[..n] && k in Unprotected(PruneAll(r1, js[..n])) ==>
      r1.targets[j].updatedAt <= PruneAll(r1, js[..n]).targets[k].updatedAt
  {
    var excess := js[..n];
    assert forall j :: j in excess ==> j in js && j in JobSet(js);
    PruneAllMeans(r1, excess);
    FirstCount(js, n);
    var r2 := PruneAll(r1, excess);
    assert JobSet(excess) <= Unprotected(r1);
    assert Unprotected(r2) == Unprotected(r1) - JobSet(excess);
    forall j, k | j in excess && k in Unprotected(r2)
      ensures r1.targets[j].updatedAt <= r2.targets[k].updatedAt
    {
      OldestFirst(r1, js, n, j, k);
    }
  }

  lemma AgedGone(r: NodeRows, aged: seq<JobId>, cutoff: int)
    requires DistinctJobs(aged) && forall j :: j in aged <==> j in r.targets && Aged(r.targets[j], cutoff)
    ensures var r1 := PruneAll(r, aged);
      && (forall j :: j in r1.targets <==> j in r.targets && !Aged(r.targets[j], cutoff))
      && (forall j :: j in r1.targets ==> r1.targets[j] == r.targets[j])
      && (forall j :: j in aged && r.targets[j].number > 0 ==> r.targets[j].number in r1.retirements)
  {
    PruneAllMeans(r, aged);
    assert forall j :: j in aged <==> j in JobSet(aged);
  }

  /** When the cap is met, the deleted rows are the aged ones. */
  lemma AgedRetained(r: NodeRows, aged: seq<JobId>, cutoff: int)
    requires DistinctJobs(aged) && forall j :: j in aged <==> j in r.targets && Aged(r.targets[j], cutoff)
    requires |Unprotected(PruneAll(r, aged))| <= ROWS_PER_NODE
    ensures Retained(r, PruneAll(r, aged), cutoff)
  {
    AgedGone(r, aged, cutoff);
  }

  ghost predicate DeletedFairly(r: NodeRows, r': NodeRows, j: JobId)
    requires j in r.targets
  {
    && !Protected(r.targets[j])
    && (r.targets[j].number > 0 ==> r.targets[j].number in r'.retirements)
    && forall k :: k in Unprotected(r') ==> r.targets[j].updatedAt <= r'.targets[k].updatedAt
  }

  lemma ExcessDeleted(r: NodeRows, aged: seq<JobId>, js: seq<JobId>, cutoff: int, j: JobId)
    requires Queried(r, aged, js, cutoff) && |js| > ROWS_PER_NODE && j in js[..|js| - ROWS_PER_NODE]
    ensures j in PruneAll(r, aged).targets
    ensures DeletedFairly(PruneAll(r, aged), PruneAll(PruneAll(r, aged), js[..|js| - ROWS_PER_NODE]), j)
  {
    var r1 := PruneAll(r, aged);
    var excess := js[..|js| - ROWS_PER_NODE];
    ExcessMeans(r1, js, |js| - ROWS_PER_NODE);
    PruneAllMeans(r1, excess);
    assert j in js && j in JobSet(js);
  }

  lemma AgedDeleted(r: NodeRows, aged: seq<JobId>, r2: NodeRows, cutoff: int, j: JobId)
    requires DistinctJobs(aged) && forall i :: i in aged <==> i in r.targets && Aged(r.targets[i], cutoff)
    requires j in aged && PruneAll(r, aged).retirements <= r2.retirements
    requires forall k :: k in r2.targets ==>
      k in PruneAll(r, aged).targets && r2.targets[k] == PruneAll(r, aged).targets[k]
    ensures DeletedFairly(r, r2, j)
  {
    AgedGone(r, aged, cutoff);
  }

  lemma RetainedFrom(r: NodeRows, r1: NodeRows, r2: NodeRows, gone: set<JobId>, cutoff: int)
    requires forall j :: j in r1.targets ==>
      j in r.targets && !Aged(r.targets[j], cutoff) && r1.targets[j] == r.targets[j]
    requires r2.targets == r1.targets - gone
    requires |Unprotected(r2)| == ROWS_PER_NODE
    requires forall j :: j in r.targets && j !in r2.targets ==> DeletedFairly(r, r2, j)
    ensures Retained(r, r2, cutoff)
  {
  }

  /** Otherwise the oldest beyond the cap follow them. */
  lemma ExcessRetained(r: NodeRows, aged: seq<JobId>, js: seq<JobId>, cutoff: int)
    requires Queried(r, aged, js, cutoff) && |js| > ROWS_PER_NODE
    ensures Retained(r, PruneAll(PruneAll(r, aged), js[..|js| - ROWS_PER_NODE]), cutoff)
  {
    var r1 := PruneAll(r, aged);
    var r2 := PruneAll(r1, js[..|js| - ROWS_PER_NODE]);
    AgedGone(r, aged, cutoff);
    ExcessMeans(r1, js, |js| - ROWS_PER_NODE);
    PruneAllMeans(r1, js[..|js| - ROWS_PER_NODE]);
    forall j | j in r.targets && j !in r2.targets
      ensures DeletedFairly(r, r2, j)
    {
      if j in r1.targets {
        ExcessDeleted(r, aged, js, cutoff, j);
      } else {
        AgedDeleted(r, aged, r2, cutoff, j);
      }
    }
    RetainedFrom(r, r1, r2, JobSet(js[..|js| - ROWS_PER_NODE]), cutoff);
  }

  /** Deleting first the aged rows and then the oldest beyond the cap keeps the promise. */
  lemma DetailRetained(r: NodeRows, aged: seq<JobId>, js: seq<JobId>, cutoff: int)
    requires Queried(r, aged, js, cutoff)
    ensures Retained(r, Detail(r, aged, js), cutoff)
  {
    if |js| > ROWS_PER_NODE {
      ExcessRetained(r, aged, js, cutoff);
    } else {
      AgedRetained(r, aged, cutoff);
    }
  }

  const KEPT_STATUSES: set<Status> := {Accepted, Downloading, Verifying, Restarting, Unknown}

  function Others(r: NodeRows): set<JobId> {
    set j | j in r.targets && r.targets[j].status !in KEPT_STATUSES
  }

  /** The promise in terms of the rows: what is under way or unknown stays; of the rest, what is older than the cutoff
      goes, at most 1024 stay, and nothing younger than the cutoff goes but to make room for younger ones; sequences
      that go are retired. */
  ghost predicate KeepsDetail(r: NodeRows, r': NodeRows, cutoff: int) {
    var rest := Others(r');
    && (forall j :: j in r'.targets ==> j in r.targets && r'.targets[j] == r.targets[j])
    && (forall j :: j in r.targets && r.targets[j].status in KEPT_STATUSES ==> j in r'.targets)
    && |rest| <= 1024 && (forall j :: j in rest ==> r'.targets[j].updatedAt >= cutoff)
    && (forall j :: j in r.targets && j !in r'.targets ==>
          && (r.targets[j].number > 0 ==> r.targets[j].number in r'.retirements)
          && (r.targets[j].updatedAt < cutoff
              || (|rest| == 1024 && forall k :: k in rest ==> r.targets[j].updatedAt <= r'.targets[k].updatedAt)))
  }

  lemma RetainedMeans(r: NodeRows, r': NodeRows, cutoff: int)
    requires Retained(r, r', cutoff)
    ensures KeepsDetail(r, r', cutoff)
  {
    assert Unprotected(r') == Others(r');
  }

  lemma DetailEvolves(r: NodeRows, aged: seq<JobId>, js: seq<JobId>, cutoff: int)
    requires Queried(r, aged, js, cutoff)
    ensures Evolves(r, Detail(r, aged, js))
  {
    PruneAllEvolves(r, aged);
    var r1 := PruneAll(r, aged);
    if |js| > ROWS_PER_NODE {
      var excess := js[..|js| - ROWS_PER_NODE];
      assert DistinctJobs(excess) && forall j :: j in excess ==> j in js;
      PruneAllEvolves(r1, excess);
      EvolvesTransitive(r, r1, PruneAll(r1, excess));
    }
  }

  method DeleteDetail(store: Store, n: NodeId, cutoff: int)
    returns (pruned: nat, ghost aged: seq<JobId>, ghost js: seq<JobId>)
    modifies store`nodes
    ensures Queried(old(store.Rows(n)), aged, js, cutoff)
    ensures store.nodes == old(store.nodes)[n := Detail(old(store.Rows(n)), aged, js)]
  {
    var rows := store.Rows(n);
    var old1 := ListRows(set j | j in rows.targets && Aged(rows.targets[j], cutoff));
    assert forall j :: j in old1 <==> j in JobSet(old1);
    DeleteRows(store, n, old1);
    pruned := |old1|;
    var rest := store.Rows(n);
    var byAge := ListOrdered(rest, Unprotected(rest), ByAge);
    Fewer(Unprotected(rest), rest.targets.Keys);
    // The row cap looks only at nodes with more rows than the cap, protected ones included.
    if |rest.targets.Keys| > ROWS_PER_NODE && |byAge| > ROWS_PER_NODE {
      DeleteRows(store, n, byAge[..|byAge| - ROWS_PER_NODE]);
      pruned := pruned + |byAge| - ROWS_PER_NODE;
    }
    aged, js := old1, byAge;
  }

  method PruneNode(store: Store, n: NodeId, cutoff: int) returns (pruned: nat)
    requires n in store.nodes
    modifies store`nodes
    ensures store.nodes.Keys == old(store.nodes).Keys
    ensures forall m :: m in store.nodes && m != n ==> store.nodes[m] == old(store.nodes)[m]
    ensures KeepsDetail(old(store.nodes)[n], store.nodes[n], cutoff)
    ensures Evolves(old(store.nodes)[n], store.nodes[n])
  {
    ghost var rows := store.nodes[n];
    ghost var aged, js;
    pruned, aged, js := DeleteDetail(store, n, cutoff);
    DetailRetained(rows, aged, js, cutoff);
    RetainedMeans(rows, store.nodes[n], cutoff);
    DetailEvolves(rows, aged, js, cutoff);
  }

  /** The retention job over all nodes. */
  method PruneUpdateDetail(store: Store, now: int) returns (pruned: nat)
    modifies store`nodes
    ensures store.nodes.Keys == old(store.nodes).Keys
    ensures forall n :: n in store.nodes ==>
      KeepsDetail(old(store.nodes)[n], store.nodes[n], now - 180 * 24 * 3600)
    ensures forall n :: n in store.nodes ==> Evolves(old(store.nodes)[n], store.nodes[n])
  {
    pruned := 0;
    var left := store.nodes.Keys;
    while left != {}
      invariant left <= store.nodes.Keys && store.nodes.Keys == old(store.nodes).Keys
      invariant forall n :: n in left ==> store.nodes[n] == old(store.nodes)[n]
      invariant forall n :: n in store.nodes && n !in left ==>
                  KeepsDetail(old(store.nodes)[n], store.nodes[n], now - RETENTION_SECONDS)
      invariant forall n :: n in store.nodes && n !in left ==> Evolves(old(store.nodes)[n], store.nodes[n])
      decreases left
    {
      var n :| n in left;
      var count := PruneNode(store, n, now - RETENTION_SECONDS);
      pruned := pruned + count;
      left := left - {n};
    }
  }
}
