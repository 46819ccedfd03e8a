/**
 The server's handlers of the command channel: what a handshake, a status
 report, a delivery, a resend and a cancellation do with the store, and which
 commands go out. Connection checks and send results are parameters.
 */
module ControlApi {
  import opened Basics
  import opened Protocol
  import opened NodeTables
  import opened NodeInvariants
  import opened TransactionLaws
  import opened UpdateStore
  import H = HandshakeExchange
  import U = SelfUpdate

  method ReconcileHandshake(store: Store, n: NodeId, p: Handshake, newId: StreamId)
    modifies store`nodes
    ensures store.Rows(n) == H.Reconciled(old(store.Rows(n)), newId, p)
    ensures OthersKept(old(store.nodes), store.nodes, n)
    ensures old(Cached(store.nodes, store.jobs)) ==> Cached(store.nodes, store.jobs)
  {
    if p.control == Quarantined {
      var ensured := store.EnsureCommandStream(n, newId);
      store.SetNodeControlState(n, p.control);
    }
    var stream := store.ReconcileCommandStream(n, newId, p.streamId, p.watermark);
  }

  /** Reconcile and backfill; the answer is sent only while the connection is current. */
  method AnswerHandshake(store: Store, n: NodeId, p: Handshake, newId: StreamId, now: int, current: bool)
    returns (ack: Option<Ack>)
    modifies store
    ensures store.Rows(n) == H.Handled(old(store.Rows(n)), newId, p, now)
    ensures OthersKept(old(store.nodes), store.nodes, n) && OnlyStatuses(old(store.jobs), store.jobs)
    ensures old(Cached(store.nodes, store.jobs)) ==> Cached(store.nodes, store.jobs)
    ensures store.Rows(n).stream.Some? && ack == if current then Some(H.AckOf(store.Rows(n))) else None
    ensures ack.Some? ==>
      var st, answer := store.Rows(n).stream.value, ack.value;
      answer.streamId == st.id && answer.nextSeq == st.nextSeq && answer.watermark == st.retired
      && answer.control == st.control
  {
    ReconcileHandshake(store, n, p, newId);
    H.BackfillKeepsStream(store.Rows(n), p.inProgress, p.records, now);
    store.ApplyHandshakeBackfill(n, p.inProgress, p.records, now);
    if !current {
      return None;
    }
    var stream := store.Rows(n).stream.value;
    return Some(Ack(stream.id, stream.nextSeq, stream.retired, stream.control));
  }

  /** A report that carries a sequence must name the target's sequence and stream. */
  predicate Identified(r: NodeRows, report: StatusReport) {
    report.number > 0 ==>
      report.jobId in r.targets && r.targets[report.jobId].number == report.number
      && report.streamId != "" && r.targets[report.jobId].streamId == report.streamId
  }

  predicate Heard(r: NodeRows, report: StatusReport) {
    report.jobId != "" && report.reject.None? && Identified(r, report)
  }

  method HandleAgentCommandStatus(store: Store, n: NodeId, report: StatusReport, now: int) returns (applied: bool)
    modifies store
    ensures var r := old(store.Rows(n));
      store.Rows(n) == if Heard(r, report)
                       then Transition(r, report.jobId, report.status, report.reportedVersion, now) else r
    ensures applied <==>
      var r, job := old(store.Rows(n)), report.jobId;
      && job != "" && report.reject.None? && job in r.targets && CanMove(r.targets[job].status, report.status)
      && (report.number > 0 ==>
            r.targets[job].number == report.number && r.targets[job].streamId == report.streamId != "")
    ensures if applied
            then Committed(old(store.Rows(n)), store.Rows(n), report.jobId, report.status, report.reportedVersion, now)
            else store.Rows(n) == old(store.Rows(n))
    ensures OthersKept(old(store.nodes), store.nodes, n)
    ensures old(Cached(store.nodes, store.jobs)) ==> Cached(store.nodes, store.jobs)
  {
    if report.jobId == "" {
      return false;
    }
    if report.reject.Some? {
      return false;
    }
    if report.number > 0 {
      var r := store.Rows(n);
      if report.jobId !in r.targets || r.targets[report.jobId].number != report.number
         || report.streamId == "" || r.targets[report.jobId].streamId != report.streamId {
        return false;
      }
    }
    applied := store.ApplyExecutionTransition(report.jobId, n, report.status, report.reportedVersion, now);
  }

  /** What the hub says about a node's connection, and whether a send succeeds. */
  datatype Link = Link(online: bool, ready: bool, generation: bool, sends: bool)

  function CommandFor(job: JobId, info: Job, t: Target): Command {
    Command(job, info.targetVersion, info.sha, t.streamId, t.number)
  }

  /** The command names the job, its version and its digest, and the stream and the sequence of the target. */
  predicate Conveys(c: Command, job: JobId, info: Job, t: Target) {
    && c.jobId == job && c.targetVersion == info.targetVersion && c.sha == info.sha
    && c.streamId == t.streamId && c.number == t.number
  }

  predicate Reachable(r: NodeRows, link: Link) {
    link.online && link.ready && r.stream.Some? && r.stream.value.control == Open && link.generation
  }

  /** The delivery facts of one send. */
  function Offered(r: NodeRows, job: JobId, sends: bool, now: int): NodeRows {
    RecordDelivery(RecordDelivery(r, job, Sending, now), job, if sends then Sent else SendFailed, now)
  }

  /** The rows after one attempt to send a command. */
  function Attempted(r: NodeRows, job: JobId, known: bool, sends: bool, now: int): NodeRows {
    if !known then RecordDelivery(r, job, SendFailed, now)
    else if !sends then Offered(r, job, sends, now)
    else Transition(Offered(r, job, sends, now), job, Dispatched, "", now)
  }

  method Offer(store: Store, n: NodeId, job: JobId, sends: bool, now: int) returns (ok: bool)
    modifies store`nodes
    ensures ok == sends && store.Rows(n) == Offered(old(store.Rows(n)), job, sends, now)
    ensures OthersKept(old(store.nodes), store.nodes, n)
    ensures old(Cached(store.nodes, store.jobs)) ==> Cached(store.nodes, store.jobs)
  {
    store.RecordTargetDelivery(job, n, Sending, now);
    if !sends {
      store.RecordTargetDelivery(job, n, SendFailed, now);
      return false;
    }
    store.RecordTargetDelivery(job, n, Sent, now);
    return true;
  }

  /** The rows after the first delivery of a target: offline nodes are skipped for good. */
  function Delivered(r: NodeRows, job: JobId, link: Link, now: int): NodeRows {
    if !link.online then Transition(RecordDelivery(r, job, SendFailed, now), job, OfflineSkipped, "", now)
    else Attempted(r, job, Reachable(r, link), link.sends, now)
  }

  /** The command of a first delivery goes out exactly when the node is reachable and the send succeeds. */
  function FirstSent(r: NodeRows, job: JobId, info: Job, link: Link): Option<Command>
    requires job in r.targets
  {
    if Reachable(r, link) && link.sends then Some(CommandFor(job, info, r.targets[job])) else None
  }

  method DeliverTarget(store: Store, job: JobId, info: Job, n: NodeId, link: Link, now: int)
    returns (sent: Option<Command>)
    requires job in store.Rows(n).targets
    modifies store
    ensures store.Rows(n) == Delivered(old(store.Rows(n)), job, link, now)
    ensures sent == FirstSent(old(store.Rows(n)), job, info, link)
    ensures sent.Some? <==>
      var stream := old(store.Rows(n)).stream;
      link.online && link.ready && link.generation && link.sends && stream.Some? && stream.value.control == Open
    ensures sent.Some? ==> Conveys(sent.value, job, info, old(store.Rows(n)).targets[job])
    ensures OthersKept(old(store.nodes), store.nodes, n)
    ensures old(Cached(store.nodes, store.jobs)) ==> Cached(store.nodes, store.jobs)
  {
    var r := store.Rows(n);
    if !link.online {
      store.RecordTargetDelivery(job, n, SendFailed, now);
      var skipped := store.ApplyExecutionTransition(job, n, OfflineSkipped, "", now);
      return None;
    }
    if !link.ready || r.stream.None? || r.stream.value.control != Open || !link.generation {
      store.RecordTargetDelivery(job, n, SendFailed, now);
      return None;
    }
    var ok := Offer(store, n, job, link.sends, now);
    if !ok {
      return None;
    }
    var marked := store.ApplyExecutionTransition(job, n, Dispatched, "", now);
    return Some(CommandFor(job, info, r.targets[job]));
  }

  ghost predicate DeliveredTo(before: Nodes, nodes: Nodes, sent: Option<Command>, job: JobId, info: Job,
                              n: NodeId, link: Link, now: int)
    requires job in RowsIn(before, n).targets
  {
    RowsIn(nodes, n) == Delivered(RowsIn(before, n), job, link, now)
    && sent == FirstSent(RowsIn(before, n), job, info, link)
  }

  /** The first targets are delivered, and the rows of all other nodes are as before. */
  ghost predicate DeliveredEach(before: Nodes, nodes: Nodes, sent: seq<Option<Command>>, job: JobId, info: Job,
                                nodeIds: seq<NodeId>, links: seq<Link>, now: int)
    requires |sent| <= |nodeIds| == |links|
    requires forall i :: 0 <= i < |nodeIds| ==> job in RowsIn(before, nodeIds[i]).targets
  {
    (forall i :: 0 <= i < |sent| ==> DeliveredTo(before, nodes, sent[i], job, info, nodeIds[i], links[i], now))
    && forall n :: n !in nodeIds[..|sent|] ==> RowsIn(nodes, n) == RowsIn(before, n)
  }

  lemma DeliveredNext(before: Nodes, nodes: Nodes, nodes': Nodes, sent: seq<Option<Command>>,
                      next: Option<Command>, job: JobId, info: Job, nodeIds: seq<NodeId>, links: seq<Link>, now: int)
    requires |sent| < |nodeIds| == |links|
    requires forall i :: 0 <= i < |sent| ==> nodeIds[i] != nodeIds[|sent|]
    requires forall i :: 0 <= i < |nodeIds| ==> job in RowsIn(before, nodeIds[i]).targets
    requires DeliveredEach(before, nodes, sent, job, info, nodeIds, links, now)
    requires OthersKept(nodes, nodes', nodeIds[|sent|])
    requires DeliveredTo(before, nodes', next, job, info, nodeIds[|sent|], links[|sent|], now)
    ensures DeliveredEach(before, nodes', sent + [next], job, info, nodeIds, links, now)
  {
    var i := |sent|;
    assert nodeIds[..i + 1] == nodeIds[..i] + [nodeIds[i]];
  }

  /** The first delivery of a new job to each of its targets, in turn. */
  method DeliverTargets(store: Store, job: JobId, info: Job, nodeIds: seq<NodeId>, links: seq<Link>, now: int)
    returns (sent: seq<Option<Command>>)
    requires |links| == |nodeIds| && forall i, k :: 0 <= i < k < |nodeIds| ==> nodeIds[i] != nodeIds[k]
    requires forall i :: 0 <= i < |nodeIds| ==> job in RowsIn(store.nodes, nodeIds[i]).targets
    modifies store
    ensures |sent| == |nodeIds|
    ensures DeliveredEach(old(store.nodes), store.nodes, sent, job, info, nodeIds, links, now)
    ensures old(Cached(store.nodes, store.jobs)) ==> Cached(store.nodes, store.jobs)
  {
    sent := [];
    for i := 0 to |nodeIds|
      invariant |sent| == i && DeliveredEach(old(store.nodes), store.nodes, sent, job, info, nodeIds, links, now)
      invariant old(Cached(store.nodes, store.jobs)) ==> Cached(store.nodes, store.jobs)
    {
      ghost var nodes := store.nodes;
      assert nodeIds[i] !in nodeIds[..i];
      var command := DeliverTarget(store, job, info, nodeIds[i], links[i], now);
      DeliveredNext(old(store.nodes), nodes, store.nodes, sent, command, job, info, nodeIds, links, now);
      sent := sent + [command];
    }
  }

  lemma DispatchRows(r: NodeRows, job: JobId, now: int)
    requires job in r.targets
    ensures var t := r.targets[job];
      Transition(r, job, Dispatched, "", now) ==
      if t.status == Pending || t.status == Dispatched
      then WithTarget(r, job, t.(status := Dispatched, updatedAt := now)) else r
  {
  }

  /** An attempt moves a target from pending to dispatched when it is sent, and changes no other status; the target
      shows whether it was sent, and no other row changes. */
  lemma AttemptMeans(r: NodeRows, job: JobId, known: bool, sends: bool, now: int)
    requires job in r.targets
    ensures var r' := Attempted(r, job, known, sends, now);
      && SameExcept(r, r', job) && r'.targets.Keys == r.targets.Keys && OnlyTarget(r, r', job) && r'.stream == r.stream
      && r'.targets[job] == r.targets[job].(
           status := if known && sends && r.targets[job].status == Pending then Dispatched else r.targets[job].status,
           delivery := if known && sends then Sent else SendFailed, updatedAt := now)
  {
    if known && sends {
      DispatchRows(Offered(r, job, sends, now), job, now);
    }
  }

  lemma DeliveryEvolves(r: NodeRows, job: JobId, d: Delivery, now: int)
    ensures Evolves(r, RecordDelivery(r, job, d, now))
  {
    if Sound(r) { DeliveryKeeps(r, job, d, now, 0); }
  }

  lemma AttemptEvolves(r: NodeRows, job: JobId, known: bool, sends: bool, now: int)
    ensures Evolves(r, Attempted(r, job, known, sends, now))
  {
    DeliveryEvolves(r, job, if known then Sending else SendFailed, now);
    if known {
      var r1 := RecordDelivery(r, job, Sending, now);
      var d := if sends then Sent else SendFailed;
      DeliveryEvolves(r1, job, d, now);
      var r2 := RecordDelivery(r1, job, d, now);
      EvolvesTransitive(r, r1, r2);
      if sends {
        if Sound(r2) { TransitionKeeps(r2, job, Dispatched, "", now, 0); }
        EvolvesTransitive(r, r2, Attempted(r, job, known, sends, now));
      }
    }
  }

  /** A first delivery of a pending target: skipped when offline, dispatched when sent, pending otherwise. Skipping is
      an outcome, so the stored watermark catches up. */
  lemma DeliveredMeans(r: NodeRows, job: JobId, link: Link, now: int)
    requires StatusOf(r, job) == Some(Pending)
    ensures var r', t := Delivered(r, job, link, now), r.targets[job];
      var sent := link.online && link.ready && link.generation && link.sends
                  && r.stream.Some? && r.stream.value.control == Open;
      && OnlyTarget(r, r', job) && SameExcept(r, r', job)
      && r'.targets[job] == t.(
           status := if !link.online then OfflineSkipped else if sent then Dispatched else Pending,
           delivery := if sent then Sent else SendFailed, updatedAt := now)
      && (if link.online then r'.stream == r.stream else SameStream(r, r', ControlIn(r)) && RoseJustly(r, r'))
      && (!link.online && t.number > 0 ==> CaughtUp(r'))
  {
    if link.online {
      AttemptMeans(r, job, Reachable(r, link), link.sends, now);
    } else {
      TransitionMeans(RecordDelivery(r, job, SendFailed, now), job, OfflineSkipped, "", now);
    }
  }

  // ---------------------------------------------------------------- resending

  /** The rows after attempting the first pending commands in order. */
  function AttemptAll(r: NodeRows, js: seq<JobId>, jobs: set<JobId>, failing: set<nat>, now: int): NodeRows
    decreases |js|
  {
    if js == [] then r
    else
      var n := |js| - 1;
      Attempted(AttemptAll(r, js[..n], jobs, failing, now), js[n], js[n] in jobs, n !in failing, now)
  }

  /** Attempting keeps what transactions keep, and only marks sent commands as dispatched. */
  lemma {:induction false} AttemptAllMeans(r: NodeRows, js: seq<JobId>, jobs: set<JobId>, failing: set<nat>, now: int,
                                           job: JobId)
    requires forall j :: j in js ==> j in r.targets
    ensures var r' := AttemptAll(r, js, jobs, failing, now);
      && r'.targets.Keys == r.targets.Keys
      && (job in r.targets ==>
            StatusOf(r', job) == StatusOf(r, job)
            || (StatusOf(r, job) == Some(Pending) && StatusOf(r', job) == Some(Dispatched) && job in js && job in jobs))
    decreases |js|
  {
    if js != [] {
      var n := |js| - 1;
      AttemptAllMeans(r, js[..n], jobs, failing, now, job);
      AttemptMeans(AttemptAll(r, js[..n], jobs, failing, now), js[n], js[n] in jobs, n !in failing, now);
    }
  }

  lemma {:induction false} AttemptAllEvolves(r: NodeRows, js: seq<JobId>, jobs: set<JobId>, failing: set<nat>, now: int)
    ensures Evolves(r, AttemptAll(r, js, jobs, failing, now))
    decreases |js|
  {
    if js != [] {
      var n := |js| - 1;
      var mid := AttemptAll(r, js[..n], jobs, failing, now);
      AttemptAllEvolves(r, js[..n], jobs, failing, now);
      AttemptEvolves(mid, js[n], js[n] in jobs, n !in failing, now);
      EvolvesTransitive(r, mid, AttemptAll(r, js, jobs, failing, now));
    }
  }

  /** The commands sent for the attempted jobs that are known. */
  function CommandsFor(r: NodeRows, js: seq<JobId>, jobs: map<JobId, Job>): seq<Command>
    requires forall j :: j in js ==> j in r.targets
    decreases |js|
  {
    if js == [] then []
    else
      var n := |js| - 1;
      CommandsFor(r, js[..n], jobs) +
      if js[n] in jobs then [CommandFor(js[n], jobs[js[n]], r.targets[js[n]])] else []
  }

  lemma QueuePrefix(r: NodeRows, js: seq<JobId>, after: int, n: nat)
    requires Queue(r, js, after) && n <= |js|
    ensures Queue(r, js[..n], after)
  {
  }

  lemma QueueClimbs(r: NodeRows, js: seq<JobId>, after: int, i: nat, k: nat)
    requires Sound(r) && after >= 0 && Queue(r, js, after) && i < k < |js|
    ensures r.targets[js[i]].number < r.targets[js[k]].number
  {
    assert r.targets[js[i]].At(ByNumber) <= r.targets[js[k]].At(ByNumber);
    assert js[i] in js && js[k] in js;
  }

  /** Each command conveys its queued job, and every job of the queue that is known has one. */
  lemma {:induction false} CommandsAre(r: NodeRows, js: seq<JobId>, jobs: map<JobId, Job>)
    requires forall j :: j in js ==> j in r.targets
    ensures forall c :: c in CommandsFor(r, js, jobs) ==>
      c.jobId in js && c.jobId in jobs && Conveys(c, c.jobId, jobs[c.jobId], r.targets[c.jobId])
    ensures forall j :: j in js && j in jobs ==> exists c :: c in CommandsFor(r, js, jobs) && c.jobId == j
    decreases |js|
  {
    if js != [] {
      var n := |js| - 1;
      var before, sent := CommandsFor(r, js[..n], jobs), CommandsFor(r, js, jobs);
      CommandsAre(r, js[..n], jobs);
      assert js[n] in js;
      assert forall j :: j in js <==> j in js[..n] || j == js[n];
      assert forall c :: c in before ==> c in sent;
      if js[n] in jobs {
        assert sent[|before|] in sent;
      }
    }
  }

  ghost predicate Climbing(sent: seq<Command>) {
    forall i, k :: 0 <= i < k < |sent| ==> sent[i].number < sent[k].number
  }

  lemma ClimbOn(sent: seq<Command>, c: Command)
    requires Climbing(sent) && forall b :: b in sent ==> b.number < c.number
    ensures Climbing(sent + [c])
  {
  }

  lemma {:induction false} CommandsClimb(r: NodeRows, js: seq<JobId>, jobs: map<JobId, Job>, after: int)
    requires Sound(r) && after >= 0 && Queue(r, js, after)
    ensures Climbing(CommandsFor(r, js, jobs))
    decreases |js|
  {
    if js != [] {
      var n := |js| - 1;
      QueuePrefix(r, js, after, n);
      CommandsClimb(r, js[..n], jobs, after);
      CommandsAre(r, js[..n], jobs);
      var before := CommandsFor(r, js[..n], jobs);
      assert before + [] == before;
      if js[n] in jobs {
        var c := CommandFor(js[n], jobs[js[n]], r.targets[js[n]]);
        forall b | b in before
          ensures b.number < c.number
        {
          EarlierIsSmaller(r, js, after, n, b.jobId);
        }
        ClimbOn(before, c);
      }
    }
  }

  /** Commands go out for unstarted targets beyond the watermark, strictly in sequence order, each with the version
      and the digest of its job. */
  lemma CommandsInOrder(r: NodeRows, js: seq<JobId>, jobs: map<JobId, Job>, after: int)
    requires Sound(r) && after >= 0 && Queue(r, js, after)
    ensures Climbing(CommandsFor(r, js, jobs))
    ensures forall c :: c in CommandsFor(r, js, jobs) ==>
      && c.jobId in js && c.jobId in r.targets && c.number > after
      && r.targets[c.jobId].status in {Pending, Dispatched}
      && c.jobId in jobs && c.number == r.targets[c.jobId].number && c.streamId == r.targets[c.jobId].streamId
      && c.targetVersion == jobs[c.jobId].targetVersion && c.sha == jobs[c.jobId].sha
  {
    CommandsAre(r, js, jobs);
    CommandsClimb(r, js, jobs, after);
  }

  /** So an executable that an agent takes for the genuine one of a command has the digest its job was created with. */
  lemma GenuineIsTheJobs(r: NodeRows, js: seq<JobId>, jobs: map<JobId, Job>, c: Command, w: U.World)
    requires forall j :: j in js ==> j in r.targets
    requires c in CommandsFor(r, js, jobs) && U.Genuine(w, c)
    ensures c.jobId in jobs && w.fetch.Fetched? && w.fetch.signed && w.fetch.digest == jobs[c.jobId].sha
  {
    CommandsAre(r, js, jobs);
  }

  lemma EarlierIsSmaller(r: NodeRows, js: seq<JobId>, after: int, n: nat, job: JobId)
    requires Sound(r) && after >= 0 && Queue(r, js, after) && n < |js| && job in js[..n]
    ensures r.targets[job].number < r.targets[js[n]].number
  {
    var i :| 0 <= i < n && js[..n][i] == job;
    QueueClimbs(r, js, after, i, n);
  }

  predicate SendFails(queue: seq<JobId>, jobs: set<JobId>, failing: set<nat>, i: nat) {
    i < |queue| && queue[i] in jobs && i in failing
  }

  /** Where the attempts stop: at the end of the queue, when the connection is gone, or at the first send that
      fails; that one was attempted but not delivered. */
  ghost predicate StopsAt(queue: seq<JobId>, jobs: set<JobId>, connected: nat, failing: set<nat>,
                          attempted: nat, delivered: nat) {
    delivered <= attempted <= |queue| && attempted <= connected
    && (forall i :: 0 <= i < delivered ==> !SendFails(queue, jobs, failing, i))
    && (if delivered < |queue| && delivered < connected
        then attempted == delivered + 1 && SendFails(queue, jobs, failing, delivered)
        else attempted == delivered)
  }

  /** The first i attempts went through. */
  ghost predicate AttemptedFirst(r: NodeRows, rows: NodeRows, queue: seq<JobId>, jobs: map<JobId, Job>,
                                 sent: seq<Command>, failing: set<nat>, now: int, i: nat)
    requires forall j :: j in queue ==> j in r.targets
  {
    && i <= |queue| && sent == CommandsFor(r, queue[..i], jobs)
    && rows == AttemptAll(r, queue[..i], jobs.Keys, failing, now)
    && forall k :: 0 <= k < i ==> !SendFails(queue, jobs.Keys, failing, k)
  }

  lemma {:induction false} AttemptNext(r: NodeRows, rows: NodeRows, queue: seq<JobId>, jobs: map<JobId, Job>,
                    sent: seq<Command>, failing: set<nat>, now: int, i: nat)
    requires i < |queue| && forall j :: j in queue ==> j in r.targets
    requires AttemptedFirst(r, rows, queue, jobs, sent, failing, now, i)
    ensures var job := queue[i];
      var rows' := Attempted(rows, job, job in jobs, i !in failing, now);
      && rows' == AttemptAll(r, queue[..i + 1], jobs.Keys, failing, now)
      && (!SendFails(queue, jobs.Keys, failing, i) ==>
            AttemptedFirst(r, rows', queue, jobs,
                           if job in jobs then sent + [CommandFor(job, jobs[job], r.targets[job])] else sent,
                           failing, now, i + 1))
  {
    assert queue[..i + 1][..i] == queue[..i];
  }

  /** Attempt the listed commands in turn, until the connection goes or a send fails. */
  method AttemptEach(store: Store, n: NodeId, pending: seq<JobId>, connected: nat, failing: set<nat>, now: int)
    returns (sent: seq<Command>, ghost attempted: nat, ghost delivered: nat)
    requires forall j :: j in pending ==> j in store.Rows(n).targets
    modifies store
    ensures StopsAt(pending, old(store.jobs).Keys, connected, failing, attempted, delivered)
    ensures sent == CommandsFor(old(store.Rows(n)), pending[..delivered], old(store.jobs))
    ensures store.Rows(n) == AttemptAll(old(store.Rows(n)), pending[..attempted], old(store.jobs).Keys, failing, now)
    ensures OthersKept(old(store.nodes), store.nodes, n)
    ensures old(Cached(store.nodes, store.jobs)) ==> Cached(store.nodes, store.jobs)
  {
    sent, attempted, delivered := [], 0, 0;
    var jobs := store.jobs;
    var r := store.Rows(n);
    for i := 0 to |pending|
      invariant attempted == delivered == i <= connected
      invariant AttemptedFirst(r, store.Rows(n), pending, jobs, sent, failing, now, i)
      invariant OthersKept(old(store.nodes), store.nodes, n) && store.jobs.Keys == jobs.Keys
      invariant old(Cached(store.nodes, store.jobs)) ==> Cached(store.nodes, store.jobs)
    {
      if i >= connected {
        return;
      }
      var job := pending[i];
      AttemptNext(r, store.Rows(n), pending, jobs, sent, failing, now, i);
      attempted := i + 1;
      var ok := AttemptTarget(store, n, job, i !in failing, now);
      if !ok {
        return;
      }
      delivered := i + 1;
      if job in jobs {
        sent := sent + [CommandFor(job, jobs[job], r.targets[job])];
      }
    }
  }

  /** What a node is due: the front of its undelivered commands when it is open, nothing when it is isolated. */
  ghost predicate Due(r: NodeRows, queue: seq<JobId>) {
    if r.stream.None? || r.stream.value.control != Open then queue == []
    else Front(r, queue, Max(r.stream.value.retired, 0), 64)
  }

  method ResendQueue(r: NodeRows) returns (pending: seq<JobId>)
    ensures Due(r, pending)
    ensures forall j :: j in pending ==> j in r.targets
  {
    if r.stream.None? || r.stream.value.control != Open {
      return [];
    }
    var watermark := r.stream.value.retired;
    if watermark < 0 {
      watermark := 0;
    }
    pending := PendingDeliveries(r, watermark, 64);
  }

  /** Resend, in order, what an open node has not started: commands go out for the delivered front of the
      queue, and each attempted target is marked. */
  method ResendPendingDeliveries(store: Store, n: NodeId, connected: nat, failing: set<nat>, now: int)
    returns (sent: seq<Command>, ghost queue: seq<JobId>, ghost attempted: nat, ghost delivered: nat)
    modifies store
    ensures Due(old(store.Rows(n)), queue) && forall j :: j in queue ==> j in old(store.Rows(n)).targets
    ensures |queue| <= 64 && StopsAt(queue, old(store.jobs).Keys, connected, failing, attempted, delivered)
    ensures sent == CommandsFor(old(store.Rows(n)), queue[..delivered], old(store.jobs))
    ensures store.Rows(n) == AttemptAll(old(store.Rows(n)), queue[..attempted], old(store.jobs).Keys, failing, now)
    ensures old(store.Rows(n)).stream.None? || old(store.Rows(n)).stream.value.control != Open ==>
      sent == [] && store.Rows(n) == old(store.Rows(n))
    ensures OthersKept(old(store.nodes), store.nodes, n)
    ensures old(Cached(store.nodes, store.jobs)) ==> Cached(store.nodes, store.jobs)
  {
    var pending := ResendQueue(store.Rows(n));
    queue := pending;
    sent, attempted, delivered := AttemptEach(store, n, pending, connected, failing, now);
  }

  lemma {:induction false} AttemptAllReaches(r: NodeRows, js: seq<JobId>, jobs: set<JobId>, now: int, job: JobId)
    requires forall j :: j in js ==> j in r.targets
    requires job in js && job in jobs && r.targets[job].status in {Pending, Dispatched}
    ensures StatusOf(AttemptAll(r, js, jobs, {}, now), job) == Some(Dispatched)
    decreases |js|
  {
    var n := |js| - 1;
    var mid := AttemptAll(r, js[..n], jobs, {}, now);
    AttemptAllMeans(r, js[..n], jobs, {}, now, job);
    AttemptAllMeans(r, js[..n], jobs, {}, now, js[n]);
    AttemptMeans(mid, js[n], js[n] in jobs, true, now);
    if js[n] != job {
      assert job in js[..n];
      AttemptAllReaches(r, js[..n], jobs, now, job);
    }
  }

  /** Over a connection that lasts and sends that succeed, every unstarted command beyond the watermark of an open
      node reaches the agent and is marked, if there are no more than sixty-four of them. */
  lemma ResendReaches(r: NodeRows, jobs: map<JobId, Job>, queue: seq<JobId>, connected: nat, attempted: nat,
                      delivered: nat, now: int, job: JobId)
    requires Sound(r) && r.stream.Some? && r.stream.value.control == Open
    requires Due(r, queue) && connected >= 64 && StopsAt(queue, jobs.Keys, connected, {}, attempted, delivered)
    requires forall j :: j in queue ==> j in r.targets
    requires |set j | j in r.targets && r.targets[j].number > r.stream.value.retired
                && r.targets[j].status in {Pending, Dispatched}| <= 64
    requires job in r.targets && r.targets[job].number > r.stream.value.retired && job in jobs
    requires r.targets[job].status in {Pending, Dispatched}
    ensures exists c :: c in CommandsFor(r, queue[..delivered], jobs) && Conveys(c, job, jobs[job], r.targets[job])
    ensures StatusOf(AttemptAll(r, queue[..attempted], jobs.Keys, {}, now), job) == Some(Dispatched)
  {
    var retired := r.stream.value.retired;
    assert Undelivered(r, retired) == set j | j in r.targets && r.targets[j].number > retired
                                              && r.targets[j].status in {Pending, Dispatched};
    FullQueue(r, queue, retired, job);
    assert queue[..delivered] == queue && queue[..attempted] == queue;
    CommandsAre(r, queue, jobs);
    AttemptAllReaches(r, queue, jobs.Keys, now, job);
  }

  lemma FullQueue(r: NodeRows, queue: seq<JobId>, after: int, job: JobId)
    requires Front(r, queue, after, 64) && |Undelivered(r, after)| <= 64 && job in Undelivered(r, after)
    ensures job in queue && |queue| <= 64
  {
    if job !in queue {
      ListedCount(queue);
      assert JobSet(queue) <= Undelivered(r, after) - {job};
      Fewer(JobSet(queue), Undelivered(r, after) - {job});
    }
  }

  lemma {:induction false} SameCommands(r: NodeRows, js: seq<JobId>, jobs: map<JobId, Job>, jobs': map<JobId, Job>)
    requires OnlyStatuses(jobs, jobs') && forall j :: j in js ==> j in r.targets
    ensures CommandsFor(r, js, jobs') == CommandsFor(r, js, jobs)
    decreases |js|
  {
    if js != [] {
      SameCommands(r, js[..|js| - 1], jobs, jobs');
    }
  }

  /** A handshake: the answer goes out on the current connection only, and an open node is then sent what it
      is due. */
  method HandleAgentHandshake(store: Store, n: NodeId, p: Handshake, newId: StreamId, now: int, current: bool,
                              connected: nat, failing: set<nat>)
    returns (ack: Option<Ack>, sent: seq<Command>, ghost queue: seq<JobId>, ghost attempted: nat, ghost delivered: nat)
    modifies store
    ensures var r := H.Handled(old(store.Rows(n)), newId, p, now);
      && r.stream.Some? && ack == (if current then Some(H.AckOf(r)) else None)
      && (if current then Due(r, queue) else queue == []) && (forall j :: j in queue ==> j in r.targets)
      && StopsAt(queue, old(store.jobs).Keys, connected, failing, attempted, delivered)
      && sent == CommandsFor(r, queue[..delivered], old(store.jobs))
      && store.Rows(n) == AttemptAll(r, queue[..attempted], old(store.jobs).Keys, failing, now)
    ensures OthersKept(old(store.nodes), store.nodes, n)
    ensures old(Cached(store.nodes, store.jobs)) ==> Cached(store.nodes, store.jobs)
  {
    ack := AnswerHandshake(store, n, p, newId, now, current);
    sent, queue, attempted, delivered := [], [], 0, 0;
    if ack.Some? && ack.value.control == Open {
      ghost var r, jobs := store.Rows(n), store.jobs;
      sent, queue, attempted, delivered := ResendPendingDeliveries(store, n, connected, failing, now);
      SameCommands(r, queue[..delivered], old(store.jobs), jobs);
    }
  }

  /** One attempt; false when the send failed. */
  method AttemptTarget(store: Store, n: NodeId, job: JobId, sends: bool, now: int) returns (ok: bool)
    modifies store
    ensures ok <==> job !in old(store.jobs) || sends
    ensures store.Rows(n) == Attempted(old(store.Rows(n)), job, job in old(store.jobs), sends, now)
    ensures OthersKept(old(store.nodes), store.nodes, n) && store.jobs.Keys == old(store.jobs).Keys
    ensures old(Cached(store.nodes, store.jobs)) ==> Cached(store.nodes, store.jobs)
  {
    if job !in store.jobs {
      store.RecordTargetDelivery(job, n, SendFailed, now);
      return true;
    }
    ok := Offer(store, n, job, sends, now);
    if ok {
      var marked := store.ApplyExecutionTransition(job, n, Dispatched, "", now);
    }
  }

  // ---------------------------------------------------------------- cancelling

  predicate Selected(r: NodeRows, n: NodeId, job: JobId, selected: set<NodeId>) {
    job in r.targets && (selected == {} || n in selected)
  }

  /** A node's rows after a job was cancelled. */
  function CancelledRows(r: NodeRows, n: NodeId, job: JobId, selected: set<NodeId>, now: int): NodeRows {
    if Selected(r, n, job, selected) && r.targets[job].number > 0
    then Tombstone(r, job, r.targets[job].number, now) else r
  }

  /** A chosen node's sequenced target gets its tombstone, and no other rows change. */
  ghost predicate CancelMeans(r: NodeRows, r': NodeRows, job: JobId, chosen: bool, now: int) {
    if chosen && job in r.targets && r.targets[job].number > 0
    then Tombstoned(r, r', job, r.targets[job].number, now) else r' == r
  }

  /** The cancel messages: to every selected target with a ready connection, numbered as the target is. */
  function Forwarded(nodes: Nodes, job: JobId, selected: set<NodeId>, ready: set<NodeId>): map<NodeId, int> {
    map n | n in nodes && n in ready && Selected(nodes[n], n, job, selected) :: nodes[n].targets[job].number
  }

  method CancelTarget(store: Store, n: NodeId, job: JobId, selected: set<NodeId>, ready: bool, now: int)
    returns (cancel: Option<int>)
    requires n in store.nodes
    modifies store`nodes
    ensures store.nodes == old(store.nodes)[n := CancelledRows(old(store.nodes)[n], n, job, selected, now)]
    ensures cancel == if ready && Selected(old(store.nodes)[n], n, job, selected)
                      then Some(old(store.nodes)[n].targets[job].number) else None
    ensures old(Cached(store.nodes, store.jobs)) ==> Cached(store.nodes, store.jobs)
  {
    var r := store.nodes[n];
    if job !in r.targets || (selected != {} && n !in selected) {
      return None;
    }
    if r.targets[job].number > 0 {
      store.CreateCancelTombstone(job, n, r.targets[job].number, now);
    }
    if ready {
      return Some(r.targets[job].number);
    }
    return None;
  }

  /** All nodes but the ones left are cancelled. */
  ghost predicate CancelledBut(before: Nodes, nodes: Nodes, left: set<NodeId>, cancels: map<NodeId, int>,
                               job: JobId, selected: set<NodeId>, ready: set<NodeId>, now: int) {
    && left <= nodes.Keys == before.Keys
    && (forall n :: n in nodes ==>
          nodes[n] == if n in left then before[n] else CancelledRows(before[n], n, job, selected, now))
    && cancels == Forwarded(before, job, selected, ready) - left
  }

  lemma CancelNext(before: Nodes, nodes: Nodes, left: set<NodeId>, cancels: map<NodeId, int>,
                   job: JobId, selected: set<NodeId>, ready: set<NodeId>, now: int, n: NodeId)
    requires CancelledBut(before, nodes, left, cancels, job, selected, ready, now) && n in left
    ensures CancelledBut(before, nodes[n := CancelledRows(before[n], n, job, selected, now)], left - {n},
                         if n in ready && Selected(before[n], n, job, selected)
                         then cancels[n := before[n].targets[job].number] else cancels,
                         job, selected, ready, now)
  {
    ForwardNext(Forwarded(before, job, selected, ready), left, n);
  }

  lemma CancelledAll(before: Nodes, nodes: Nodes, cancels: map<NodeId, int>,
                     job: JobId, selected: set<NodeId>, ready: set<NodeId>, now: int)
    requires CancelledBut(before, nodes, {}, cancels, job, selected, ready, now)
    ensures cancels == Forwarded(before, job, selected, ready) && nodes.Keys == before.Keys
    ensures forall n :: n in nodes ==> CancelMeans(before[n], nodes[n], job, selected == {} || n in selected, now)
  {
    forall n | n in nodes
      ensures CancelMeans(before[n], nodes[n], job, selected == {} || n in selected, now)
    {
      if job in before[n].targets { TombstoneMeans(before[n], job, before[n].targets[job].number, now); }
    }
    assert Forwarded(before, job, selected, ready) - {} == Forwarded(before, job, selected, ready);
  }

  lemma ForwardNext(cancels: map<NodeId, int>, left: set<NodeId>, n: NodeId)
    requires n in left
    ensures cancels - (left - {n}) == if n in cancels then (cancels - left)[n := cancels[n]] else cancels - left
  {
  }

  /** Cancelling a job that exists writes a tombstone for every selected sequenced target, forwards the cancel
      to the ready ones, and touches no execution status; a missing job changes nothing. */
  method CancelUpdateJob(store: Store, job: JobId, selected: set<NodeId>, ready: set<NodeId>, now: int)
    returns (found: bool, cancels: map<NodeId, int>)
    modifies store`nodes
    ensures found <==> job in store.jobs
    ensures !found ==> store.nodes == old(store.nodes) && cancels == map[]
    ensures found ==> forall n :: n in cancels <==>
      n in old(store.nodes) && n in ready && job in old(store.nodes)[n].targets && (selected == {} || n in selected)
    ensures forall n :: n in cancels ==> cancels[n] == old(store.nodes)[n].targets[job].number
    ensures found ==> store.nodes.Keys == old(store.nodes).Keys
    ensures found ==> forall n :: n in store.nodes ==>
      CancelMeans(old(store.nodes)[n], store.nodes[n], job, selected == {} || n in selected, now)
    ensures old(Cached(store.nodes, store.jobs)) ==> Cached(store.nodes, store.jobs)
  {
    found := job in store.jobs;
    if !found {
      return found, map[];
    }
    cancels := CancelEach(store, job, selected, ready, now);
    CancelledAll(old(store.nodes), store.nodes, cancels, job, selected, ready, now);
  }

  method CancelEach(store: Store, job: JobId, selected: set<NodeId>, ready: set<NodeId>, now: int)
    returns (cancels: map<NodeId, int>)
    modifies store`nodes
    ensures CancelledBut(old(store.nodes), store.nodes, {}, cancels, job, selected, ready, now)
    ensures old(Cached(store.nodes, store.jobs)) ==> Cached(store.nodes, store.jobs)
  {
    var left := store.nodes.Keys;
    cancels := map[];
    assert Forwarded(store.nodes, job, selected, ready) - left == map[];
    while left != {}
      invariant CancelledBut(old(store.nodes), store.nodes, left, cancels, job, selected, ready, now)
      invariant old(Cached(store.nodes, store.jobs)) ==> Cached(store.nodes, store.jobs)
      decreases left
    {
      var n :| n in left;
      CancelNext(old(store.nodes), store.nodes, left, cancels, job, selected, ready, now, n);
      var cancel := CancelTarget(store, n, job, selected, n in ready, now);
      if cancel.Some? {
        cancels := cancels[n := cancel.value];
      }
      left := left - {n};
    }
  }
}
