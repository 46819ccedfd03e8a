/**
 The events of the server's runs, each performed by the store as code.
 */
module StoreRuns {
  import opened Basics
  import opened Protocol
  import opened NodeTables
  import opened Retention
  import opened UpdateStore
  import S = ServerRuns

  predicate FromAgent(e: S.Event) {
    e.StatusReported? || e.RecordReported? || e.InProgressReported? || e.Reconciled? || e.QuarantineReported?
  }

  method PerformReport(store: Store, n: NodeId, e: S.Event)
    requires FromAgent(e)
    modifies store
    ensures store.Rows(n) == S.Apply(old(store.Rows(n)), e)
    ensures OthersKept(old(store.nodes), store.nodes, n)
  {
    match e {
      case StatusReported(job, status, version, now) =>
        var committed := store.ApplyExecutionTransition(job, n, status, version, now);
      case RecordReported(rec, now) => store.ApplyBackfillRecord(n, rec, now);
      case InProgressReported(ip) => store.ApplyBackfillInProgress(n, Some(ip));
      case Reconciled(newId, agentStream, watermark) =>
        var stream := store.ReconcileCommandStream(n, newId, agentStream, watermark);
      case QuarantineReported(newId) =>
        var stream := store.EnsureCommandStream(n, newId);
        store.SetNodeControlState(n, Quarantined);
    }
  }

  method PerformClosing(store: Store, n: NodeId, e: S.Event)
    requires e.Cancelled? || e.Pruned?
    modifies store
    ensures store.Rows(n) == S.Apply(old(store.Rows(n)), e)
    ensures OthersKept(old(store.nodes), store.nodes, n)
  {
    if e.job !in store.Rows(n).targets {
      return;
    }
    if e.Cancelled? {
      store.CreateCancelTombstone(e.job, n, store.Rows(n).targets[e.job].number, e.now);
    } else {
      assert [e.job][..0] == [];
      DeleteRows(store, n, [e.job]);
    }
  }

  /** What the store does with the rows of a node is the event, and no other node's rows change. */
  method Perform(store: Store, n: NodeId, e: S.Event)
    requires S.Allowed(store.Rows(n), e)
    modifies store
    ensures store.Rows(n) == S.Apply(old(store.Rows(n)), e)
    ensures OthersKept(old(store.nodes), store.nodes, n)
  {
    if FromAgent(e) {
      PerformReport(store, n, e);
    } else if e.Cancelled? || e.Pruned? {
      PerformClosing(store, n, e);
    } else if e.Create? {
      var ok, tx := AllocateTx(store.Rows(n), e.job, e.sha, e.newId, e.now);
      store.nodes := store.nodes[n := tx];
    } else if e.Deliver? {
      store.RecordTargetDelivery(e.job, n, e.delivery, e.now);
    } else {
      var outcome := store.ResolveUnknownTarget(e.job, n, e.resolution, "evidence", "", e.now);
    }
  }
}
