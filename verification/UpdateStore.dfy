/**
 The server's store as an object: the rows of every node and the jobs. A method
 is one database transaction: it works on its own view of a node's rows and
 commits it at the end. Every method is tied to the effect defined in
 NodeTables, leaves all other nodes alone, and keeps the stored job statuses in
 step with their targets.
 */
module UpdateStore {
  import opened Basics
  import opened Protocol
  import opened RetiredPrefix
  import opened NodeTables
  import opened JobAggregate
  import opened NodeInvariants
  import opened TransactionLaws

  datatype Job = Job(targetVersion: string, sha: Hash, status: JobStatus)

  type Nodes = map<NodeId, NodeRows>

  function RowsIn(nodes: Nodes, n: NodeId): NodeRows {
    if n in nodes then nodes[n] else EMPTY_ROWS
  }

  /** The statuses of a job's targets, by node. */
  function TargetStatuses(nodes: Nodes, job: JobId): map<NodeId, Status> {
    map n | n in nodes && job in nodes[n].targets :: nodes[n].targets[job].status
  }

  function JobStatusIn(nodes: Nodes, job: JobId): JobStatus {
    Aggregate(Range(TargetStatuses(nodes, job)))
  }

  ghost predicate EveryTarget(nodes: Nodes, job: JobId, statuses: set<Status>) {
    forall n :: n in nodes && job in nodes[n].targets ==> nodes[n].targets[job].status in statuses
  }

  ghost predicate SomeTarget(nodes: Nodes, job: JobId, statuses: set<Status>) {
    exists n :: n in nodes && job in nodes[n].targets && nodes[n].targets[job].status in statuses
  }

  lemma RangeIs(nodes: Nodes, job: JobId, statuses: set<Status>)
    ensures Range(TargetStatuses(nodes, job)) <= statuses <==> EveryTarget(nodes, job, statuses)
    ensures Range(TargetStatuses(nodes, job)) * statuses != {} <==> SomeTarget(nodes, job, statuses)
  {
    var found := TargetStatuses(nodes, job);
    forall n | n in nodes && job in nodes[n].targets
      ensures nodes[n].targets[job].status in Range(found)
    {
      assert n in found;
    }
    if SomeTarget(nodes, job, statuses) {
      var n :| n in nodes && job in nodes[n].targets && nodes[n].targets[job].status in statuses;
      assert nodes[n].targets[job].status in Range(found) * statuses;
    }
  }

  /** When a job is in which status, over its targets on all nodes. */
  lemma JobStatusMeans(nodes: Nodes, job: JobId)
    ensures var failures := {Failed, Unknown, Timeout, Cancelled, OfflineSkipped};
      && (JobStatusIn(nodes, job) == JobPending <==> EveryTarget(nodes, job, {Pending}))
      && (JobStatusIn(nodes, job) == JobCompleted <==>
            SomeTarget(nodes, job, {Succeeded}) && EveryTarget(nodes, job, {Succeeded}))
      && (JobStatusIn(nodes, job) == JobFailed <==>
            SomeTarget(nodes, job, failures) && EveryTarget(nodes, job, failures))
      && (JobStatusIn(nodes, job) == JobPartialFailed <==>
            SomeTarget(nodes, job, {Succeeded}) && SomeTarget(nodes, job, failures)
            && EveryTarget(nodes, job, {Succeeded} + failures))
  {
    var failures := {Failed, Unknown, Timeout, Cancelled, OfflineSkipped};
    var statuses := Range(TargetStatuses(nodes, job));
    AggregateExactly(statuses);
    RangeIs(nodes, job, {Pending});
    RangeIs(nodes, job, {Succeeded});
    RangeIs(nodes, job, failures);
    RangeIs(nodes, job, {Succeeded} + failures);
    Overlaps(statuses, failures);
  }

  lemma Overlaps(statuses: set<Status>, failures: set<Status>)
    requires Succeeded !in failures
    ensures statuses != {} && statuses <= failures <==> statuses * failures != {} && statuses <= failures
    ensures statuses == {Succeeded} <==> statuses * {Succeeded} != {} && statuses <= {Succeeded}
    ensures Succeeded in statuses && statuses != {Succeeded} && statuses <= {Succeeded} + failures <==>
      statuses * {Succeeded} != {} && statuses * failures != {} && statuses <= {Succeeded} + failures
  {
    if statuses <= failures { assert statuses * failures == statuses; }
    if Succeeded in statuses && statuses != {Succeeded} {
      var s := Other(statuses, Succeeded);
      assert s in statuses + {Succeeded};
      if statuses <= {Succeeded} + failures { assert s in statuses * failures; }
    }
    if statuses * {Succeeded} != {} { assert Succeeded in statuses; }
    if statuses == {Succeeded} { assert statuses * failures == {} && Succeeded in statuses * {Succeeded}; }
    if Succeeded in statuses { assert Succeeded in statuses * {Succeeded}; }
  }

  /** The stored status of every job is the aggregate of its targets. */
  ghost predicate Cached(nodes: Nodes, jobs: map<JobId, Job>) {
    forall j :: j in jobs ==> jobs[j].status == JobStatusIn(nodes, j)
  }

  function Recomputed(jobs: map<JobId, Job>, nodes: Nodes, job: JobId): map<JobId, Job> {
    if job in jobs then jobs[job := jobs[job].(status := JobStatusIn(nodes, job))] else jobs
  }

  lemma SameStatuses(nodes: Nodes, n: NodeId, r: NodeRows, job: JobId)
    requires StatusOf(r, job) == StatusOf(RowsIn(nodes, n), job)
    ensures JobStatusIn(nodes[n := r], job) == JobStatusIn(nodes, job)
  {
    assert TargetStatuses(nodes[n := r], job) == TargetStatuses(nodes, job);
  }

  ghost predicate SameExcept(r: NodeRows, r': NodeRows, job: JobId) {
    forall j :: j != job ==> StatusOf(r', j) == StatusOf(r, j)
  }

  ghost predicate SameStatus(r: NodeRows, r': NodeRows) {
    forall j :: StatusOf(r', j) == StatusOf(r, j)
  }

  /** Rows that leave the statuses of all jobs but one alone keep the cache once that job is recomputed. */
  lemma RecomputeKeeps(nodes: Nodes, jobs: map<JobId, Job>, n: NodeId, r: NodeRows, job: JobId)
    requires Cached(nodes, jobs) && SameExcept(RowsIn(nodes, n), r, job)
    ensures Cached(nodes[n := r], Recomputed(jobs, nodes[n := r], job))
  {
    forall j | j in jobs && j != job
      ensures JobStatusIn(nodes[n := r], j) == JobStatusIn(nodes, j)
    {
      SameStatuses(nodes, n, r, j);
    }
  }

  lemma QuietKeeps(nodes: Nodes, jobs: map<JobId, Job>, n: NodeId, r: NodeRows)
    requires Cached(nodes, jobs) && SameStatus(RowsIn(nodes, n), r)
    ensures Cached(nodes[n := r], jobs)
  {
    forall j | j in jobs
      ensures JobStatusIn(nodes[n := r], j) == JobStatusIn(nodes, j)
    {
      SameStatuses(nodes, n, r, j);
    }
  }

  /** The same targets, each with its old status or a legal next one. */
  ghost predicate LegalRows(r: NodeRows, r': NodeRows) {
    forall j :: (j in r'.targets <==> j in r.targets)
      && (j in r.targets ==> LegalChange(r.targets[j].status, r'.targets[j].status))
  }

  /** No job that was past pending and running is back there. */
  ghost predicate StillSettled(jobs: map<JobId, Job>, jobs': map<JobId, Job>) {
    forall j :: j in jobs && Settled(jobs[j].status) ==> j in jobs' && Settled(jobs'[j].status)
  }

  lemma LegalStatuses(nodes: Nodes, n: NodeId, r: NodeRows, job: JobId)
    requires LegalRows(RowsIn(nodes, n), r)
    ensures TargetStatuses(nodes[n := r], job).Keys == TargetStatuses(nodes, job).Keys
    ensures forall m :: m in TargetStatuses(nodes, job) ==>
      LegalChange(TargetStatuses(nodes, job)[m], TargetStatuses(nodes[n := r], job)[m])
  {
    assert job in r.targets <==> job in RowsIn(nodes, n).targets;
  }

  /** A transaction that changes statuses only legally unsettles no job. */
  lemma RecomputeSettles(nodes: Nodes, jobs: map<JobId, Job>, n: NodeId, r: NodeRows, job: JobId)
    requires Cached(nodes, jobs) && LegalRows(RowsIn(nodes, n), r)
    ensures StillSettled(jobs, Recomputed(jobs, nodes[n := r], job))
  {
    if job in jobs && Settled(jobs[job].status) {
      LegalStatuses(nodes, n, r, job);
      SettledStays(TargetStatuses(nodes, job), TargetStatuses(nodes[n := r], job));
    }
  }

  lemma TransitionIsLegal(r: NodeRows, job: JobId, status: Status, version: string, now: int)
    ensures LegalRows(r, Transition(r, job, status, version, now))
  {
    if Commits(r, job, status) { ReportedTargets(r, job, status, version, now); }
  }

  lemma RecordIsLegal(r: NodeRows, rec: RecordReport, now: int)
    ensures LegalRows(r, BackfillRecord(r, rec, now))
  {
  }

  lemma StageIsLegal(r: NodeRows, ip: Option<InProgressReport>)
    ensures LegalRows(r, BackfillInProgress(r, ip))
  {
  }

  lemma DispositionIsLegal(r: NodeRows, job: JobId, resolution: Status, now: int)
    ensures LegalRows(r, ResolveUnknown(r, job, resolution, now))
  {
  }

  // ---------------------------------------------------------------- steps inside a transaction

  /** The watermark query: the closed sequences in ascending order, scanned. */
  method RetiredWatermarkFrom(tx: NodeRows) returns (watermark: nat)
    ensures IsPrefix(ClosedSeqs(tx), watermark)
    ensures watermark == Prefix(ClosedSeqs(tx))
  {
    var rows := Ascending(ClosedSeqs(tx));
    watermark := ScanPrefix(rows, ClosedSeqs(tx));
  }

  method AdvanceRetiredWatermarkTx(tx: NodeRows) returns (tx': NodeRows)
    ensures tx' == Advance(tx)
    ensures CaughtUp(tx') && RoseJustly(tx, tx')
  {
    AdvanceReaches(tx);
    var watermark := RetiredWatermarkFrom(tx);
    if watermark == 0 || tx.stream.None? {
      return tx;
    }
    var stream := tx.stream.value;
    if stream.retired < watermark {
      stream := stream.(retired := watermark);
    }
    return tx.(stream := Some(stream));
  }

  method EnsureStreamTx(tx: NodeRows, newId: StreamId) returns (tx': NodeRows, stream: Stream)
    ensures tx' == EnsureStream(tx, newId) && tx'.stream == Some(stream)
  {
    if tx.stream.Some? {
      stream := tx.stream.value;
      if stream.nextSeq <= 0 {
        stream := stream.(nextSeq := stream.retired + 1);
      }
    } else {
      stream := Stream(newId, 1, 0, Open);
    }
    tx' := tx.(stream := Some(stream));
  }

  method ReconcileTx(tx: NodeRows, newId: StreamId, agentStream: StreamId, agentWatermark: int)
    returns (tx': NodeRows)
    ensures tx' == Reconcile(tx, newId, agentStream, agentWatermark)
  {
    var stream;
    tx', stream := EnsureStreamTx(tx, newId);
    if stream.control != Open {
      return;
    }
    if agentStream != "" && agentStream != stream.id {
      stream := stream.(control := Quarantined);
      return tx'.(stream := Some(stream));
    }
    if agentStream != "" && agentStream == stream.id && stream.nextSeq <= agentWatermark {
      stream := stream.(nextSeq := agentWatermark + 1);
    }
    var serverWatermark := RetiredWatermarkFrom(tx');
    var retired := stream.retired;
    if agentWatermark > retired {
      retired := agentWatermark;
    }
    if serverWatermark > retired {
      retired := serverWatermark;
    }
    if retired > stream.retired {
      stream := stream.(retired := retired);
    }
    tx' := tx'.(stream := Some(stream));
  }

  method TransitionTx(tx: NodeRows, job: JobId, status: Status, version: string, now: int)
    returns (tx': NodeRows, committed: bool)
    ensures committed <==> job in tx.targets && CanMove(tx.targets[job].status, status)
    ensures tx' == Transition(tx, job, status, version, now)
    ensures if committed then Committed(tx, tx', job, status, version, now) else tx' == tx
  {
    TransitionMeans(tx, job, status, version, now);
    if job !in tx.targets {
      return tx, false;
    }
    var t := tx.targets[job];
    var allowed := TransitionAllowed(t.status, status);
    if !allowed {
      return tx, false;
    }
    var reportedVersion := t.reportedVersion;
    if version != "" {
      reportedVersion := version;
    }
    tx' := WithTarget(tx, job, t.(status := status, updatedAt := now, reportedVersion := reportedVersion));
    if status == Unknown && t.number > 0 {
      tx' := WithControl(tx', Blocked);
    }
    if Terminal(status) && t.number > 0 {
      tx' := AdvanceRetiredWatermarkTx(tx');
    }
    committed := true;
  }

  /** Jobs change in nothing but their status. */
  ghost predicate OnlyStatuses(jobs: map<JobId, Job>, jobs': map<JobId, Job>) {
    jobs'.Keys == jobs.Keys && forall j :: j in jobs ==> jobs'[j] == jobs[j].(status := jobs'[j].status)
  }

  ghost predicate OthersKept(nodes: Nodes, nodes': Nodes, n: NodeId) {
    forall m :: m != n ==> RowsIn(nodes', m) == RowsIn(nodes, m)
  }

  lemma RecordSameExcept(r: NodeRows, rec: RecordReport, now: int)
    ensures SameExcept(r, BackfillRecord(r, rec, now), rec.jobId)
  {
  }

  method BackfillRecordTx(tx: NodeRows, rec: RecordReport, now: int) returns (tx': NodeRows, applied: bool)
    ensures applied <==> RecordApplies(tx, rec)
    ensures tx' == BackfillRecord(tx, rec, now)
  {
    if rec.number <= 0 || rec.jobId == "" || rec.jobId !in tx.targets {
      return tx, false;
    }
    var t := tx.targets[rec.jobId];
    if t.number != rec.number {
      return tx, false;
    }
    var allowed := TransitionAllowed(t.status, rec.status);
    if !allowed {
      return tx, false;
    }
    tx' := WithTarget(tx, rec.jobId, t.(
      status := rec.status, updatedAt := now, reportedVersion := rec.reportedVersion));
    if rec.status == Unknown {
      tx' := WithControl(tx', Blocked);
    }
    applied := true;
  }

  /** The insertion of one target, which its primary key refuses when the target is there already. */
  method AllocateTx(tx: NodeRows, job: JobId, sha: Hash, newId: StreamId, now: int) returns (ok: bool, tx': NodeRows)
    ensures ok <==> job !in tx.targets
    ensures ok ==> tx' == Allocate(tx, job, sha, newId, now)
  {
    var rows, stream := EnsureStreamTx(tx, newId);
    var number := stream.nextSeq;
    stream := stream.(nextSeq := number + 1);
    rows := rows.(stream := Some(stream));
    if job in rows.targets {
      return false, tx;
    }
    return true, WithTarget(rows, job, Target(Pending, number, stream.id, DeliveryPending, sha, now, "", 0));
  }

  /** Statuses an agent that comes back with the target version may be finalized from. */
  predicate Finalizable(s: Status) {
    s.Dispatched? || InProgress(s)
  }

  predicate Finalizes(nodes: Nodes, jobs: map<JobId, Job>, n: NodeId, version: string, job: JobId) {
    job in jobs && jobs[job].targetVersion == version
    && job in RowsIn(nodes, n).targets && Finalizable(RowsIn(nodes, n).targets[job].status)
  }

  predicate Unused(nodes: Nodes, job: JobId) {
    forall m :: m in nodes ==> job !in nodes[m].targets
  }

  function FinalizeQuery(nodes: Nodes, jobs: map<JobId, Job>, n: NodeId, version: string): set<JobId> {
    set j | j in RowsIn(nodes, n).targets && Finalizes(nodes, jobs, n, version, j)
  }

  datatype Disposition = Invalid | NotUnknown | Disposed

  ghost predicate DistinctJobs(js: seq<JobId>) {
    forall i, k :: 0 <= i < k < |js| ==> js[i] != js[k]
  }

  function SucceedAll(r: NodeRows, js: seq<JobId>, version: string, now: int): NodeRows
    decreases |js|
  {
    if js == [] then r
    else Transition(SucceedAll(r, js[..|js| - 1], version, now), js[|js| - 1], Succeeded, version, now)
  }

  lemma FinalizeStep(r: NodeRows, job: JobId, version: string, now: int)
    requires job in r.targets && Finalizable(r.targets[job].status)
    ensures var r' := Transition(r, job, Succeeded, version, now);
      StatusOf(r', job) == Some(Succeeded) && SameExcept(r, r', job)
  {
    OutcomeAlwaysAccepted(r.targets[job].status, Succeeded);
  }

  /** Exactly the finalized targets end up succeeded. */
  lemma {:induction false} SucceedAllMeans(r: NodeRows, js: seq<JobId>, version: string, now: int, job: JobId)
    requires DistinctJobs(js)
    requires forall j :: j in js ==> j in r.targets && Finalizable(r.targets[j].status)
    ensures StatusOf(SucceedAll(r, js, version, now), job) == if job in js then Some(Succeeded) else StatusOf(r, job)
    decreases |js|
  {
    if js != [] {
      var front, last := js[..|js| - 1], js[|js| - 1];
      SucceedAllMeans(r, front, version, now, job);
      SucceedAllMeans(r, front, version, now, last);
      assert last !in front;
      var mid := SucceedAll(r, front, version, now);
      assert StatusOf(mid, last) == StatusOf(r, last);
      FinalizeStep(mid, last, version, now);
    }
  }

  /** Finalizing keeps what transitions keep. */
  lemma {:induction false} SucceedAllEvolves(r: NodeRows, js: seq<JobId>, version: string, now: int)
    ensures Evolves(r, SucceedAll(r, js, version, now))
    decreases |js|
  {
    if js != [] {
      var mid := SucceedAll(r, js[..|js| - 1], version, now);
      SucceedAllEvolves(r, js[..|js| - 1], version, now);
      if Sound(mid) { TransitionKeeps(mid, js[|js| - 1], Succeeded, version, now, 0); }
      EvolvesTransitive(r, mid, SucceedAll(r, js, version, now));
    }
  }

  lemma AllPendingIsPending(nodes: Nodes, job: JobId)
    requires forall n :: n in TargetStatuses(nodes, job) ==> TargetStatuses(nodes, job)[n] == Pending
    ensures JobStatusIn(nodes, job) == JobPending
  {
  }

  lemma TransitionSameExcept(r: NodeRows, job: JobId, status: Status, version: string, now: int)
    ensures SameExcept(r, Transition(r, job, status, version, now), job)
  {
  }

  lemma TransitionCached(nodes: Nodes, jobs: map<JobId, Job>, n: NodeId, job: JobId, status: Status, version: string,
                         now: int)
    requires Cached(nodes, jobs)
    ensures var r := RowsIn(nodes, n);
      var nodes' := nodes[n := Transition(r, job, status, version, now)];
      && Cached(nodes', Recomputed(jobs, nodes', job)) && StillSettled(jobs, Recomputed(jobs, nodes', job))
      && (!Commits(r, job, status) ==> Cached(nodes', jobs))
  {
    var r := RowsIn(nodes, n);
    var tx := Transition(r, job, status, version, now);
    TransitionSameExcept(r, job, status, version, now);
    TransitionIsLegal(r, job, status, version, now);
    RecomputeSettles(nodes, jobs, n, tx, job);
    RecomputeKeeps(nodes, jobs, n, tx, job);
    if !Commits(r, job, status) { QuietKeeps(nodes, jobs, n, tx); }
  }

  // ---------------------------------------------------------------- queries

  function JobSet(js: seq<JobId>): set<JobId> {
    set j | j in js
  }

  lemma AppendJob(js: seq<JobId>, j: JobId)
    requires DistinctJobs(js) && j !in JobSet(js)
    ensures DistinctJobs(js + [j]) && JobSet(js + [j]) == JobSet(js) + {j}
  {
    assert forall i :: 0 <= i < |js| ==> js[i] in JobSet(js);
  }

  lemma AppendOrdered(r: NodeRows, js: seq<JobId>, column: Column, j: JobId)
    requires Ordered(r, js, column) && j in r.targets
    requires forall i :: 0 <= i < |js| ==> r.targets[js[i]].At(column) <= r.targets[j].At(column)
    ensures Ordered(r, js + [j], column)
  {
  }

  /** List a set of rows, in any order. */
  method ListRows(jobs: set<JobId>) returns (js: seq<JobId>)
    ensures DistinctJobs(js) && JobSet(js) == jobs && |js| == |jobs|
  {
    js := [];
    var left := jobs;
    while left != {}
      invariant left <= jobs && DistinctJobs(js) && JobSet(js) == jobs - left && |js| + |left| == |jobs|
      decreases left
    {
      var j :| j in left;
      assert j !in JobSet(js);
      AppendJob(js, j);
      js := js + [j];
      left := left - {j};
    }
  }

  ghost predicate Ordered(r: NodeRows, js: seq<JobId>, column: Column) {
    (forall j :: j in js ==> j in r.targets)
    && forall i, k :: 0 <= i < k < |js| ==> r.targets[js[i]].At(column) <= r.targets[js[k]].At(column)
  }

  /** List a set of rows ordered by a column. */
  method ListOrdered(r: NodeRows, jobs: set<JobId>, column: Column) returns (js: seq<JobId>)
    requires jobs <= r.targets.Keys
    ensures DistinctJobs(js) && JobSet(js) == jobs && |js| == |jobs| && Ordered(r, js, column)
  {
    js := [];
    var left := jobs;
    while left != {}
      invariant left <= jobs && DistinctJobs(js) && JobSet(js) == jobs - left && |js| + |left| == |jobs|
      invariant Ordered(r, js, column)
      invariant forall i, j :: 0 <= i < |js| && j in left ==> r.targets[js[i]].At(column) <= r.targets[j].At(column)
      decreases left
    {
      var j := Least(r, left, column);
      assert j !in JobSet(js);
      AppendJob(js, j);
      AppendOrdered(r, js, column, j);
      js := js + [j];
      left := left - {j};
    }
  }

  method Least(r: NodeRows, jobs: set<JobId>, column: Column) returns (least: JobId)
    requires jobs != {} && jobs <= r.targets.Keys
    ensures least in jobs && forall j :: j in jobs ==> r.targets[least].At(column) <= r.targets[j].At(column)
  {
    least :| least in jobs;
    var left := jobs - {least};
    while left != {}
      invariant left <= jobs && least in jobs
      invariant forall j :: j in jobs && j !in left ==> r.targets[least].At(column) <= r.targets[j].At(column)
      decreases left
    {
      var j :| j in left;
      if r.targets[j].At(column) < r.targets[least].At(column) {
        least := j;
      }
      left := left - {j};
    }
  }

  /** Commands beyond a watermark whose execution has not started. All four delivery states qualify. */
  function Undelivered(r: NodeRows, after: int): set<JobId> {
    set j | j in r.targets && r.targets[j].number > after
      && (r.targets[j].status.Pending? || r.targets[j].status.Dispatched?)
  }

  /** Undelivered targets beyond a watermark, each once, in sequence order. */
  ghost predicate Queue(r: NodeRows, js: seq<JobId>, after: int) {
    DistinctJobs(js) && (forall j :: j in js ==> j in Undelivered(r, after)) && Ordered(r, js, ByNumber)
  }

  /** The first undelivered targets beyond a watermark: as many as there are up to the limit, and none is left
      out that comes before one of them. */
  ghost predicate Front(r: NodeRows, js: seq<JobId>, after: int, limit: nat) {
    Queue(r, js, after)
    && |js| == (if |Undelivered(r, after)| <= limit then |Undelivered(r, after)| else limit)
    && forall i, j :: i in js && j in Undelivered(r, after) && j !in js ==> r.targets[i].number <= r.targets[j].number
  }

  /** The first undelivered commands in sequence order. */
  method PendingDeliveries(r: NodeRows, after: int, limit: int) returns (js: seq<JobId>)
    ensures Front(r, js, after, LimitOf(limit))
    ensures FirstUnstarted(r, js, after, if limit > 0 then limit else 64)
  {
    var all := ListOrdered(r, Undelivered(r, after), ByNumber);
    assert forall j :: j in all <==> j in JobSet(all);
    js := if |all| <= LimitOf(limit) then all else all[..LimitOf(limit)];
    assert forall j :: j in js ==> j in all;
    FrontMeans(r, js, after, LimitOf(limit));
  }

  /** Targets with commands beyond a watermark whose execution has not started, each once and in sequence order; one
      that is left out finds the limit reached and comes after all of them. */
  ghost predicate FirstUnstarted(r: NodeRows, js: seq<JobId>, after: int, limit: nat) {
    && |js| <= limit && DistinctJobs(js)
    && (forall j :: j in js ==>
          j in r.targets && r.targets[j].number > after && r.targets[j].status in {Pending, Dispatched})
    && (forall j :: j in r.targets && r.targets[j].number > after && r.targets[j].status in {Pending, Dispatched} ==>
          j in js || (|js| == limit && forall i :: i in js ==> r.targets[i].number <= r.targets[j].number))
    && (forall i, k :: 0 <= i < k < |js| ==> r.targets[js[i]].number <= r.targets[js[k]].number)
  }

  lemma FrontMeans(r: NodeRows, js: seq<JobId>, after: int, limit: nat)
    requires Front(r, js, after, limit)
    ensures FirstUnstarted(r, js, after, limit)
  {
    forall j | j in Undelivered(r, after) && j !in js
      ensures |js| == limit
    {
      if |Undelivered(r, after)| <= limit {
        ListedCount(js);
        Fewer(JobSet(js), Undelivered(r, after) - {j});
      }
    }
  }

  lemma {:induction false} ListedCount(js: seq<JobId>)
    requires DistinctJobs(js)
    ensures |JobSet(js)| == |js|
    decreases |js|
  {
    if js == [] {
      assert JobSet(js) == {};
    } else {
      var front, last := js[..|js| - 1], js[|js| - 1];
      ListedCount(front);
      assert JobSet(js) == JobSet(front) + {last};
      assert last !in JobSet(front);
    }
  }

  lemma Fewer<T>(a: set<T>, b: set<T>)
    requires a <= b
    ensures |a| <= |b|
  {
    assert b == a + (b - a);
  }

  function LimitOf(limit: int): nat {
    if limit <= 0 then 64 else limit
  }

  // ---------------------------------------------------------------- the store

  class Store {
    var nodes: Nodes
    var jobs: map<JobId, Job>

    constructor ()
      ensures nodes == map[] && jobs == map[]
      ensures Cached(nodes, jobs)
    {
      nodes, jobs := map[], map[];
    }

    function Rows(n: NodeId): NodeRows
      reads this
    {
      RowsIn(nodes, n)
    }

    method EnsureCommandStream(n: NodeId, newId: StreamId) returns (stream: Stream)
      modifies this`nodes
      ensures nodes == old(nodes)[n := EnsureStream(old(Rows(n)), newId)]
      ensures Rows(n).stream == Some(stream)
      ensures old(Cached(nodes, jobs)) ==> Cached(nodes, jobs)
    {
      var tx;
      tx, stream := EnsureStreamTx(Rows(n), newId);
      if Cached(nodes, jobs) { QuietKeeps(nodes, jobs, n, tx); }
      nodes := nodes[n := tx];
    }

    method SetNodeControlState(n: NodeId, control: Control)
      modifies this`nodes
      ensures nodes == old(nodes)[n := WithControl(old(Rows(n)), control)]
      ensures old(Cached(nodes, jobs)) ==> Cached(nodes, jobs)
    {
      var tx := Rows(n);
      if tx.stream.Some? {
        tx := tx.(stream := Some(tx.stream.value.(control := control)));
      }
      if Cached(nodes, jobs) { QuietKeeps(nodes, jobs, n, tx); }
      nodes := nodes[n := tx];
    }

    method ReconcileCommandStream(n: NodeId, newId: StreamId, agentStream: StreamId, agentWatermark: int)
      returns (stream: Stream)
      modifies this`nodes
      ensures nodes == old(nodes)[n := Reconcile(old(Rows(n)), newId, agentStream, agentWatermark)]
      ensures Rows(n).stream == Some(stream)
      ensures old(Cached(nodes, jobs)) ==> Cached(nodes, jobs)
    {
      var tx := ReconcileTx(Rows(n), newId, agentStream, agentWatermark);
      if Cached(nodes, jobs) { QuietKeeps(nodes, jobs, n, tx); }
      nodes := nodes[n := tx];
      stream := tx.stream.value;
    }

    /** Read the target rows of a job, in any order. */
    method ListTargetStatuses(job: JobId) returns (rows: seq<Status>)
      ensures (set s | s in rows) == Range(TargetStatuses(nodes, job))
    {
      rows := [];
      var statuses := TargetStatuses(nodes, job);
      var left := statuses.Keys;
      while left != {}
        invariant left <= statuses.Keys
        invariant forall n :: n in statuses && n !in left ==> statuses[n] in rows
        invariant forall s :: s in rows ==> exists n :: n in statuses && statuses[n] == s
        decreases left
      {
        var n :| n in left;
        rows := rows + [statuses[n]];
        left := left - {n};
      }
    }

    method RecomputeUpdateJobStatus(job: JobId)
      modifies this`jobs
      ensures jobs == Recomputed(old(jobs), nodes, job)
    {
      var rows := ListTargetStatuses(job);
      var status := AggregateUpdateJobStatus(rows);
      if job in jobs {
        jobs := jobs[job := jobs[job].(status := status)];
      }
    }

    method RecordTargetDelivery(job: JobId, n: NodeId, state: Delivery, now: int)
      modifies this`nodes
      ensures nodes == old(nodes)[n := RecordDelivery(old(Rows(n)), job, state, now)]
      ensures OthersKept(old(nodes), nodes, n)
      ensures old(Cached(nodes, jobs)) ==> Cached(nodes, jobs)
    {
      var tx := Rows(n);
      if job in tx.targets {
        tx := WithTarget(tx, job, tx.targets[job].(delivery := state, updatedAt := now));
      }
      if Cached(nodes, jobs) { QuietKeeps(nodes, jobs, n, tx); }
      nodes := nodes[n := tx];
    }

    /** The compare-and-set entry point for execution reports. */
    method ApplyExecutionTransition(job: JobId, n: NodeId, status: Status, version: string, now: int)
      returns (committed: bool)
      modifies this
      ensures committed <==> job in old(Rows(n)).targets && CanMove(old(Rows(n)).targets[job].status, status)
      ensures if committed then Committed(old(Rows(n)), Rows(n), job, status, version, now)
              else Rows(n) == old(Rows(n))
      ensures nodes == old(nodes)[n := Transition(old(Rows(n)), job, status, version, now)]
      ensures jobs == if committed then Recomputed(old(jobs), nodes, job) else old(jobs)
      ensures jobs.Keys == old(jobs).Keys && OthersKept(old(nodes), nodes, n)
      ensures old(Cached(nodes, jobs)) ==> Cached(nodes, jobs) && StillSettled(old(jobs), jobs)
    {
      var tx;
      tx, committed := TransitionTx(Rows(n), job, status, version, now);
      if Cached(nodes, jobs) { TransitionCached(nodes, jobs, n, job, status, version, now); }
      nodes := nodes[n := tx];
      if committed {
        RecomputeUpdateJobStatus(job);
      }
    }

    method ApplyBackfillRecord(n: NodeId, rec: RecordReport, now: int)
      modifies this
      ensures Rows(n) == BackfillRecord(old(Rows(n)), rec, now)
      ensures OthersKept(old(nodes), nodes, n) && OnlyStatuses(old(jobs), jobs)
      ensures old(Cached(nodes, jobs)) ==> Cached(nodes, jobs) && StillSettled(old(jobs), jobs)
    {
      var tx, applied := BackfillRecordTx(Rows(n), rec, now);
      if applied {
        RecordSameExcept(Rows(n), rec, now);
        if Cached(nodes, jobs) {
          RecordIsLegal(Rows(n), rec, now);
          RecomputeSettles(nodes, jobs, n, tx, rec.jobId);
          RecomputeKeeps(nodes, jobs, n, tx, rec.jobId);
        }
        nodes := nodes[n := tx];
        RecomputeUpdateJobStatus(rec.jobId);
      }
    }

    method ApplyBackfillInProgress(n: NodeId, inProgress: Option<InProgressReport>)
      modifies this
      ensures Rows(n) == BackfillInProgress(old(Rows(n)), inProgress)
      ensures OthersKept(old(nodes), nodes, n) && OnlyStatuses(old(jobs), jobs)
      ensures old(Cached(nodes, jobs)) ==> Cached(nodes, jobs) && StillSettled(old(jobs), jobs)
    {
      if inProgress.None? || inProgress.value.number <= 0 || inProgress.value.jobId == "" {
        return;
      }
      var ip := inProgress.value;
      var tx := Rows(n);
      if ip.jobId !in tx.targets || tx.targets[ip.jobId].number != ip.number {
        return;
      }
      var allowed := TransitionAllowed(tx.targets[ip.jobId].status, ip.stage);
      if allowed {
        tx := WithTarget(tx, ip.jobId, tx.targets[ip.jobId].(status := ip.stage));
        assert SameExcept(Rows(n), tx, ip.jobId);
        if Cached(nodes, jobs) {
          StageIsLegal(Rows(n), inProgress);
          RecomputeSettles(nodes, jobs, n, tx, ip.jobId);
          RecomputeKeeps(nodes, jobs, n, tx, ip.jobId);
        }
        nodes := nodes[n := tx];
        RecomputeUpdateJobStatus(ip.jobId);
      }
    }

    /** Agent-verified facts after a handshake: each record in turn, then the task in progress. */
    method ApplyHandshakeBackfill(n: NodeId, inProgress: Option<InProgressReport>, records: seq<RecordReport>, now: int)
      modifies this
      ensures Rows(n) == Backfill(old(Rows(n)), inProgress, records, now)
      ensures OthersKept(old(nodes), nodes, n) && OnlyStatuses(old(jobs), jobs)
      ensures old(Cached(nodes, jobs)) ==> Cached(nodes, jobs) && StillSettled(old(jobs), jobs)
    {
      for i := 0 to |records|
        invariant Rows(n) == BackfillRecords(old(Rows(n)), records[..i], now)
        invariant OthersKept(old(nodes), nodes, n) && OnlyStatuses(old(jobs), jobs)
        invariant old(Cached(nodes, jobs)) ==> Cached(nodes, jobs) && StillSettled(old(jobs), jobs)
      {
        assert records[..i + 1][..i] == records[..i];
        ApplyBackfillRecord(n, records[i], now);
      }
      assert records[..|records|] == records;
      ApplyBackfillInProgress(n, inProgress);
    }

    method CreateCancelTombstone(job: JobId, n: NodeId, number: int, now: int)
      modifies this`nodes
      ensures nodes == old(nodes)[n := Tombstone(old(Rows(n)), job, number, now)]
      ensures Tombstoned(old(Rows(n)), Rows(n), job, number, now)
      ensures old(Cached(nodes, jobs)) ==> Cached(nodes, jobs)
    {
      TombstoneMeans(Rows(n), job, number, now);
      var tx := Rows(n);
      tx := tx.(tombstones := tx.tombstones + {number});
      if job in tx.targets {
        tx := WithTarget(tx, job, tx.targets[job].(cancelIntentAt := now));
      }
      tx := AdvanceRetiredWatermarkTx(tx);
      if Cached(nodes, jobs) { QuietKeeps(nodes, jobs, n, tx); }
      nodes := nodes[n := tx];
    }

    /** The operator's disposition of an unknown outcome, which needs evidence or a reason. */
    method ResolveUnknownTarget(job: JobId, n: NodeId, resolution: Status, evidence: string, reason: string, now: int)
      returns (outcome: Disposition)
      modifies this
      ensures outcome == Disposed <==>
                resolution in {Succeeded, Failed, Cancelled} && (evidence != "" || reason != "")
                && job in old(Rows(n)).targets && old(Rows(n)).targets[job].status == Unknown
      ensures outcome == Invalid <==>
                resolution !in {Succeeded, Failed, Cancelled} || (evidence == "" && reason == "")
      ensures outcome == Disposed ==>
                DisposedAs(old(Rows(n)), Rows(n), job, resolution, now)
                && nodes == old(nodes)[n := ResolveUnknown(old(Rows(n)), job, resolution, now)]
                && jobs == Recomputed(old(jobs), nodes, job)
      ensures outcome != Disposed ==> nodes == old(nodes) && jobs == old(jobs)
      ensures old(Cached(nodes, jobs)) ==> Cached(nodes, jobs) && StillSettled(old(jobs), jobs)
    {
      ResolveMeans(Rows(n), job, resolution, now);
      if !Resolution(resolution) {
        return Invalid;
      }
      if evidence == "" && reason == "" {
        return Invalid;
      }
      var tx := Rows(n);
      if job !in tx.targets || tx.targets[job].status != Unknown {
        return NotUnknown;
      }
      tx := WithTarget(tx, job, tx.targets[job].(status := resolution, updatedAt := now));
      var remaining := UnknownRemains(tx);
      if !remaining {
        tx := WithControl(tx, Open);
      }
      if Cached(nodes, jobs) {
        DispositionIsLegal(Rows(n), job, resolution, now);
        RecomputeSettles(nodes, jobs, n, tx, job);
        RecomputeKeeps(nodes, jobs, n, tx, job);
      }
      nodes := nodes[n := tx];
      RecomputeUpdateJobStatus(job);
      return Disposed;
    }

    method FinalizeTarget(job: JobId, n: NodeId, version: string, now: int)
      modifies this
      ensures Rows(n) == Transition(old(Rows(n)), job, Succeeded, version, now) && OthersKept(old(nodes), nodes, n)
      ensures old(Cached(nodes, jobs)) ==> Cached(nodes, jobs) && StillSettled(old(jobs), jobs)
    {
      var committed := ApplyExecutionTransition(job, n, Succeeded, version, now);
    }

    /** The agent came back with a version: its unfinished targets of that version have succeeded. */
    method FinalizeUpdateJobsForNodeVersion(n: NodeId, version: string, now: int) returns (ghost finalized: seq<JobId>)
      modifies this
      ensures Rows(n) == SucceedAll(old(Rows(n)), finalized, version, now)
      ensures Evolves(old(Rows(n)), Rows(n))
      ensures DistinctJobs(finalized)
      ensures forall j :: j in finalized <==>
                j in old(jobs) && old(jobs)[j].targetVersion == version && j in old(Rows(n)).targets
                && old(Rows(n)).targets[j].status in {Dispatched, Accepted, Downloading, Verifying, Restarting}
      ensures OthersKept(old(nodes), nodes, n)
      ensures old(Cached(nodes, jobs)) ==> Cached(nodes, jobs) && StillSettled(old(jobs), jobs)
    {
      var found := FinalizeQuery(nodes, jobs, n, version);
      var rows := ListRows(found);
      finalized := rows;
      for i := 0 to |rows|
        invariant Rows(n) == SucceedAll(old(Rows(n)), rows[..i], version, now)
        invariant OthersKept(old(nodes), nodes, n)
        invariant old(Cached(nodes, jobs)) ==> Cached(nodes, jobs) && StillSettled(old(jobs), jobs)
      {
        assert rows[..i + 1][..i] == rows[..i];
        FinalizeTarget(rows[i], n, version, now);
      }
      assert rows[..|rows|] == rows;
      assert forall j :: j in rows <==> j in JobSet(rows);
      SucceedAllEvolves(old(Rows(n)), rows, version, now);
    }

    /** Create a job and one target per node in one transaction, or nothing at all. */
    method CreateUpdateJobWithTargets(job: JobId, info: Job, nodeIds: seq<NodeId>, newIds: seq<StreamId>, now: int)
      returns (created: bool)
      requires |newIds| == |nodeIds|
      modifies this
      ensures created <==>
                job !in old(jobs) && (forall i, j :: 0 <= i < j < |nodeIds| ==> nodeIds[i] != nodeIds[j])
                && forall i :: 0 <= i < |nodeIds| ==> job !in RowsIn(old(nodes), nodeIds[i]).targets
      ensures !created ==> nodes == old(nodes) && jobs == old(jobs)
      ensures created ==> jobs == old(jobs)[job := info]
      ensures created ==> forall i :: 0 <= i < |nodeIds| ==>
                RowsIn(nodes, nodeIds[i]) == Allocate(RowsIn(old(nodes), nodeIds[i]), job, info.sha, newIds[i], now)
      ensures created ==> forall m :: m !in nodeIds ==> RowsIn(nodes, m) == RowsIn(old(nodes), m)
      ensures created && info.status == JobPending && Unused(old(nodes), job) && old(Cached(nodes, jobs)) ==>
                Cached(nodes, jobs)
    {
      if job in jobs {
        return false;
      }
      var tx := nodes;
      for i := 0 to |nodeIds|
        invariant nodes == old(nodes) && jobs == old(jobs)
        invariant AllocatedTo(nodes, tx, nodeIds, newIds, i, job, info.sha, now)
      {
        var n := nodeIds[i];
        var ok, rows := AllocateTx(RowsIn(tx, n), job, info.sha, newIds[i], now);
        if !ok {
          AlreadyThere(nodes, tx, nodeIds, newIds, i, job, info.sha, now);
          return false;
        }
        AllocatedNext(nodes, tx, nodeIds, newIds, i, job, info.sha, now);
        tx := tx[n := rows];
      }
      assert nodeIds[..|nodeIds|] == nodeIds;
      if info.status == JobPending && Cached(nodes, jobs) && Unused(nodes, job) {
        CreationCached(nodes, jobs, tx, job, info, nodeIds, newIds, now);
      }
      nodes := tx;
      jobs := jobs[job := info];
      return true;
    }
  }

  /** The first targets are allocated, on different nodes, and no other node is touched. */
  ghost predicate AllocatedTo(nodes: Nodes, tx: Nodes, nodeIds: seq<NodeId>, newIds: seq<StreamId>, n: nat,
                              job: JobId, sha: Hash, now: int)
    requires n <= |nodeIds| == |newIds|
  {
    && (forall k, l :: 0 <= k < l < n ==> nodeIds[k] != nodeIds[l])
    && (forall k :: 0 <= k < n ==> job !in RowsIn(nodes, nodeIds[k]).targets)
    && (forall k :: 0 <= k < n ==>
          RowsIn(tx, nodeIds[k]) == Allocate(RowsIn(nodes, nodeIds[k]), job, sha, newIds[k], now))
    && (forall m :: m !in nodeIds[..n] ==> RowsIn(tx, m) == RowsIn(nodes, m))
  }

  lemma AllocatedNext(nodes: Nodes, tx: Nodes, nodeIds: seq<NodeId>, newIds: seq<StreamId>, i: nat,
                      job: JobId, sha: Hash, now: int)
    requires i < |nodeIds| == |newIds| && AllocatedTo(nodes, tx, nodeIds, newIds, i, job, sha, now)
    requires job !in RowsIn(tx, nodeIds[i]).targets
    ensures AllocatedTo(nodes, tx[nodeIds[i] := Allocate(RowsIn(tx, nodeIds[i]), job, sha, newIds[i], now)],
                        nodeIds, newIds, i + 1, job, sha, now)
  {
    var n := nodeIds[i];
    forall k | 0 <= k < i
      ensures nodeIds[k] != n
    {
      assert job in RowsIn(tx, nodeIds[k]).targets;
    }
    assert n !in nodeIds[..i];
    assert nodeIds[..i + 1] == nodeIds[..i] + [n];
  }

  lemma AlreadyThere(nodes: Nodes, tx: Nodes, nodeIds: seq<NodeId>, newIds: seq<StreamId>, i: nat,
                     job: JobId, sha: Hash, now: int)
    requires i < |nodeIds| == |newIds| && AllocatedTo(nodes, tx, nodeIds, newIds, i, job, sha, now)
    requires job in RowsIn(tx, nodeIds[i]).targets
    ensures job in RowsIn(nodes, nodeIds[i]).targets || exists k :: 0 <= k < i && nodeIds[k] == nodeIds[i]
  {
  }

  /** The rows after a creation: allocated on the job's nodes, and as before on the others. */
  ghost predicate CreatedRows(nodes: Nodes, tx: Nodes, job: JobId, sha: Hash, nodeIds: seq<NodeId>,
                              newIds: seq<StreamId>, now: int)
    requires |newIds| == |nodeIds|
  {
    && (forall i :: 0 <= i < |nodeIds| ==>
          RowsIn(tx, nodeIds[i]) == Allocate(RowsIn(nodes, nodeIds[i]), job, sha, newIds[i], now))
    && (forall m :: m !in nodeIds ==> RowsIn(tx, m) == RowsIn(nodes, m))
  }

  lemma AllocatedStatuses(r: NodeRows, job: JobId, sha: Hash, newId: StreamId, now: int, other: JobId)
    ensures StatusOf(Allocate(r, job, sha, newId, now), other) ==
      if other == job then Some(Pending) else StatusOf(r, other)
  {
  }

  lemma CreatedStatus(nodes: Nodes, tx: Nodes, job: JobId, sha: Hash, nodeIds: seq<NodeId>, newIds: seq<StreamId>,
                      now: int, m: NodeId, other: JobId)
    requires |newIds| == |nodeIds| && CreatedRows(nodes, tx, job, sha, nodeIds, newIds, now)
    ensures StatusOf(RowsIn(tx, m), other) ==
      if m in nodeIds && other == job then Some(Pending) else StatusOf(RowsIn(nodes, m), other)
  {
    if m in nodeIds {
      var i :| 0 <= i < |nodeIds| && nodeIds[i] == m;
      AllocatedStatuses(RowsIn(nodes, m), job, sha, newIds[i], now, other);
    }
  }

  /** A created job's targets are all pending, and no other job's change. */
  lemma CreationCached(nodes: Nodes, jobs: map<JobId, Job>, tx: Nodes, job: JobId, info: Job,
                       nodeIds: seq<NodeId>, newIds: seq<StreamId>, now: int)
    requires Cached(nodes, jobs) && info.status == JobPending && |newIds| == |nodeIds|
    requires Unused(nodes, job) && CreatedRows(nodes, tx, job, info.sha, nodeIds, newIds, now)
    ensures Cached(tx, jobs[job := info])
  {
    forall j | j in jobs && j != job
      ensures JobStatusIn(tx, j) == JobStatusIn(nodes, j)
    {
      forall m
        ensures StatusOf(RowsIn(tx, m), j) == StatusOf(RowsIn(nodes, m), j)
      {
        CreatedStatus(nodes, tx, job, info.sha, nodeIds, newIds, now, m, j);
      }
      SameEverywhere(nodes, tx, j);
    }
    forall m | m in TargetStatuses(tx, job)
      ensures TargetStatuses(tx, job)[m] == Pending
    {
      CreatedStatus(nodes, tx, job, info.sha, nodeIds, newIds, now, m, job);
      assert job !in RowsIn(nodes, m).targets;
    }
    AllPendingIsPending(tx, job);
  }

  lemma SameEverywhere(nodes: Nodes, nodes': Nodes, job: JobId)
    requires forall m :: StatusOf(RowsIn(nodes', m), job) == StatusOf(RowsIn(nodes, m), job)
    ensures JobStatusIn(nodes', job) == JobStatusIn(nodes, job)
  {
    forall m
      ensures m in TargetStatuses(nodes', job) <==> m in TargetStatuses(nodes, job)
      ensures m in TargetStatuses(nodes, job) ==> TargetStatuses(nodes', job)[m] == TargetStatuses(nodes, job)[m]
    {
      assert StatusOf(RowsIn(nodes', m), job) == StatusOf(RowsIn(nodes, m), job);
    }
    assert TargetStatuses(nodes', job) == TargetStatuses(nodes, job);
  }
}
