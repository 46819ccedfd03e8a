/**
 Runs of the server on one node's rows: any interleaving of the transactions,
 and restores of the database to any earlier snapshot.
 */
module ServerRuns {
  import opened Basics
  import opened Protocol
  import opened RetiredPrefix
  import opened NodeTables
  import opened NodeInvariants

  datatype Event =
    | Create(job: JobId, sha: Hash, newId: StreamId, now: int)
    | Deliver(job: JobId, delivery: Delivery, now: int)
    | StatusReported(job: JobId, status: Status, version: string, now: int)
    | RecordReported(rec: RecordReport, now: int)
    | InProgressReported(ip: InProgressReport)
    | Reconciled(newId: StreamId, agentStream: StreamId, watermark: int)
    | QuarantineReported(newId: StreamId)
    | Cancelled(job: JobId, now: int)
    | Disposed(job: JobId, resolution: Status, now: int)
    | Pruned(job: JobId)

  function Apply(r: NodeRows, e: Event): NodeRows {
    match e
    case Create(job, sha, newId, now) => Allocate(r, job, sha, newId, now)
    case Deliver(job, delivery, now) => RecordDelivery(r, job, delivery, now)
    case StatusReported(job, status, version, now) => Transition(r, job, status, version, now)
    case RecordReported(rec, now) => BackfillRecord(r, rec, now)
    case InProgressReported(ip) => BackfillInProgress(r, Some(ip))
    case Reconciled(newId, agentStream, watermark) => Reconcile(r, newId, agentStream, watermark)
    case QuarantineReported(newId) => QuarantineNode(r, newId)
    case Cancelled(job, now) => if job in r.targets then Tombstone(r, job, r.targets[job].number, now) else r
    case Disposed(job, resolution, now) => ResolveUnknown(r, job, resolution, now)
    case Pruned(job) => if job in r.targets then PruneRow(r, job, r.targets[job].number) else r
  }

  /** What the callers guarantee: job ids are new, only sequenced targets get a tombstone, an agent
      without a stream reports no watermark, and an in-progress report names an in-progress stage. */
  ghost predicate Allowed(r: NodeRows, e: Event) {
    match e
    case Create(job, _, _, _) => job !in r.targets
    case Reconciled(_, agentStream, watermark) => agentStream == "" ==> watermark <= 0
    case InProgressReported(ip) => InProgress(ip.stage)
    case Cancelled(job, _) => job in r.targets ==> r.targets[job].number > 0
    case _ => true
  }

  /** The watermark an event carries from the agent. */
  function ReportedBy(e: Event): int {
    if e.Reconciled? then e.watermark else 0
  }

  lemma JustifiedWeaken(r: NodeRows, a: int, b: int)
    requires Justified(r, a) && a <= b
    ensures Justified(r, b)
  {
  }

  /** What a report of the agent keeps. */
  lemma ReportStepKeeps(r: NodeRows, e: Event, reported: int)
    requires Sound(r) && Allowed(r, e)
    requires e.StatusReported? || e.RecordReported? || e.InProgressReported? || e.QuarantineReported?
    ensures Kept(r, Apply(r, e), reported)
  {
    match e {
      case StatusReported(job, status, version, now) => TransitionKeeps(r, job, status, version, now, reported);
      case RecordReported(rec, now) => BackfillRecordKeeps(r, rec, now, reported);
      case InProgressReported(ip) => BackfillInProgressKeeps(r, Some(ip), reported);
      case QuarantineReported(newId) =>
        EnsureStreamKeeps(r, newId, reported);
        var r0 := EnsureStream(r, newId);
        ControlKeeps(r0, Quarantined, reported);
        ForwardTransitive(r, r0, Apply(r, e));
    }
  }

  /** What the server's own transactions keep. */
  lemma OwnStepKeeps(r: NodeRows, e: Event, reported: int)
    requires Sound(r) && Allowed(r, e)
    requires e.Create? || e.Deliver? || e.Cancelled? || e.Disposed? || e.Pruned?
    ensures Kept(r, Apply(r, e), reported)
  {
    match e {
      case Create(job, sha, newId, now) => AllocateKeeps(r, job, sha, newId, now, reported);
      case Deliver(job, delivery, now) => DeliveryKeeps(r, job, delivery, now, reported);
      case Cancelled(job, now) => if job in r.targets { TombstoneKeeps(r, job, now, reported); }
      case Disposed(job, resolution, now) => ResolveKeeps(r, job, resolution, now, reported);
      case Pruned(job) => if job in r.targets { PruneKeeps(r, job, reported); }
    }
  }

  lemma StepKeeps(r: NodeRows, e: Event, reported: int)
    requires Sound(r) && Allowed(r, e)
    ensures var r' := Apply(r, e);
      && Sound(r') && Forward(r, r') && (FailClosed(r) ==> FailClosed(r'))
      && (Justified(r, reported) ==> Justified(r', Max(reported, ReportedBy(e))))
  {
    if e.Reconciled? {
      ReconcileKeeps(r, e.newId, e.agentStream, e.watermark, reported);
    } else {
      if e.StatusReported? || e.RecordReported? || e.InProgressReported? || e.QuarantineReported? {
        ReportStepKeeps(r, e, reported);
      } else {
        OwnStepKeeps(r, e, reported);
      }
      if Justified(Apply(r, e), reported) {
        JustifiedWeaken(Apply(r, e), reported, Max(reported, ReportedBy(e)));
      }
    }
  }

  // ---------------------------------------------------------------- runs with database restores

  datatype Step = Do(event: Event) | Restore(snapshot: nat)

  /** All states of a run in order; a restore returns to the rows of any earlier state. */
  function States(r: NodeRows, steps: seq<Step>): (h: seq<NodeRows>)
    ensures |h| == |steps| + 1
    decreases |steps|
  {
    if steps == [] then [r]
    else
      var h := States(r, steps[..|steps| - 1]);
      var step := steps[|steps| - 1];
      h + [match step
           case Do(e) => Apply(h[|h| - 1], e)
           case Restore(k) => if k < |h| then h[k] else h[|h| - 1]]
  }

  ghost predicate AllowedRun(r: NodeRows, steps: seq<Step>) {
    forall i :: 0 <= i < |steps| && steps[i].Do? ==> Allowed(States(r, steps)[i], steps[i].event)
  }

  function MaxReported(steps: seq<Step>): int
    decreases |steps|
  {
    if steps == [] then 0
    else
      var before := MaxReported(steps[..|steps| - 1]);
      var step := steps[|steps| - 1];
      if step.Do? then Max(before, ReportedBy(step.event)) else before
  }

  /** The tables before the protocol: no stream, and legacy targets without a sequence. */
  ghost predicate Initial(r: NodeRows) {
    r.stream.None? && r.tombstones == {} && r.retirements == {}
    && forall j :: j in r.targets ==> r.targets[j].number == 0
  }

  ghost predicate Safe(r: NodeRows, reported: int) {
    Sound(r) && FailClosed(r) && Justified(r, reported)
  }

  /** Over every run with restores: no sequence is reused among the live targets, none is a permanent
      hole, unknown outcomes keep the node closed, and the stored watermark is justified. */
  lemma {:induction false} EveryStateSafe(r: NodeRows, steps: seq<Step>)
    requires Initial(r) && AllowedRun(r, steps)
    ensures forall i :: 0 <= i < |States(r, steps)| ==> Safe(States(r, steps)[i], MaxReported(steps))
    decreases |steps|
  {
    if steps != [] {
      var n := |steps| - 1;
      var front := steps[..n];
      var h := States(r, front);
      var all := States(r, steps);
      assert all == h + [all[n + 1]];
      forall i | 0 <= i < |front| && front[i].Do?
        ensures Allowed(States(r, front)[i], front[i].event)
      {
        assert steps[i] == front[i] && all[i] == h[i];
      }
      EveryStateSafe(r, front);
      var before, after := MaxReported(front), MaxReported(steps);
      if steps[n].Do? {
        assert all[n] == h[n];
        StepKeeps(h[n], steps[n].event, before);
      }
      forall i | 0 <= i < |all|
        ensures Safe(all[i], after)
      {
        if i < |h| {
          assert all[i] == h[i];
          JustifiedWeaken(h[i], before, after);
        } else if steps[n].Restore? {
          var k := steps[n].snapshot;
          JustifiedWeaken(if k < |h| then h[k] else h[n], before, after);
        }
      }
    }
  }

  // ---------------------------------------------------------------- runs between restores

  function Play(r: NodeRows, es: seq<Event>): NodeRows
    decreases |es|
  {
    if es == [] then r else Apply(Play(r, es[..|es| - 1]), es[|es| - 1])
  }

  ghost predicate AllowedPlay(r: NodeRows, es: seq<Event>)
    decreases |es|
  {
    es == [] || (AllowedPlay(r, es[..|es| - 1]) && Allowed(Play(r, es[..|es| - 1]), es[|es| - 1]))
  }

  /** Between restores the counters and the closed sequences only grow, and so does the scan's result. */
  lemma {:induction false} PlayForward(r: NodeRows, es: seq<Event>)
    requires Sound(r) && AllowedPlay(r, es)
    ensures Sound(Play(r, es)) && Forward(r, Play(r, es))
    ensures Prefix(ClosedSeqs(r)) <= Prefix(ClosedSeqs(Play(r, es)))
    decreases |es|
  {
    if es != [] {
      var front := es[..|es| - 1];
      PlayForward(r, front);
      StepKeeps(Play(r, front), es[|es| - 1], 0);
      ForwardTransitive(r, Play(r, front), Play(r, es));
    }
    PrefixMonotone(ClosedSeqs(r), ClosedSeqs(Play(r, es)));
  }

  /** A step keeps the sequence of every target it keeps, and only an allocation adds one. */
  lemma StepNumbers(r: NodeRows, e: Event, job: JobId)
    requires Sound(r) && Allowed(r, e) && job in Apply(r, e).targets
    ensures job in r.targets ==> Apply(r, e).targets[job].number == r.targets[job].number
    ensures job !in r.targets && r.stream.Some? ==> Apply(r, e).targets[job].number >= r.stream.value.nextSeq
  {
    if e.Create? {
      EnsureStreamKeeps(r, e.newId, 0);
    } else {
      OthersAddNothing(r, e);
    }
  }

  ghost predicate NumbersKept(r: NodeRows, r': NodeRows) {
    forall j :: j in r'.targets ==> j in r.targets && r'.targets[j].number == r.targets[j].number
  }

  lemma OthersAddNothing(r: NodeRows, e: Event)
    requires !e.Create?
    ensures NumbersKept(r, Apply(r, e))
  {
    match e {
      case Create(_, _, _, _) =>
      case Deliver(_, _, _) =>
      case StatusReported(job, status, version, now) =>
        if Commits(r, job, status) { ReportAddsNothing(r, job, status, version, now); }
      case RecordReported(_, _) =>
      case InProgressReported(_) =>
      case Reconciled(_, _, _) =>
      case QuarantineReported(_) =>
      case Cancelled(job, now) => if job in r.targets { TombstoneAddsNothing(r, job, now); }
      case Disposed(_, _, _) =>
      case Pruned(job) => if job in r.targets { PruneAddsNothing(r, job); }
    }
  }

  lemma TombstoneAddsNothing(r: NodeRows, job: JobId, now: int)
    requires job in r.targets
    ensures NumbersKept(r, Tombstone(r, job, r.targets[job].number, now))
  {
  }

  lemma PruneAddsNothing(r: NodeRows, job: JobId)
    requires job in r.targets
    ensures NumbersKept(r, PruneRow(r, job, r.targets[job].number))
  {
  }

  lemma ReportAddsNothing(r: NodeRows, job: JobId, status: Status, version: string, now: int)
    requires job in r.targets
    ensures NumbersKept(r, Report(r, job, status, version, now))
  {
    ReportedTargets(r, job, status, version, now);
  }

  /** After a restore, reconciling with the agent's watermark on an open, matching stream puts every
      later allocation beyond everything the agent has retired. */
  lemma {:induction false} AllocationsBeyondWatermark(r: NodeRows, newId: StreamId, watermark: int, es: seq<Event>,
                                                      job: JobId)
    requires Sound(r) && r.stream.Some? && r.stream.value.control == Open && r.stream.value.id != ""
    requires var r1 := Reconcile(r, newId, r.stream.value.id, watermark);
      AllowedPlay(r1, es) && job in Play(r1, es).targets && job !in r1.targets
    ensures Play(Reconcile(r, newId, r.stream.value.id, watermark), es).targets[job].number > watermark
    decreases |es|
  {
    var r1 := Reconcile(r, newId, r.stream.value.id, watermark);
    ReconcileKeeps(r, newId, r.stream.value.id, watermark, 0);
    if es != [] {
      var front := es[..|es| - 1];
      var mid := Play(r1, front);
      PlayForward(r1, front);
      StepNumbers(mid, es[|es| - 1], job);
      if job in mid.targets {
        AllocationsBeyondWatermark(r, newId, watermark, front, job);
      }
    }
  }

  function Counter(r: NodeRows): int {
    if r.stream.None? then 0 else r.stream.value.nextSeq
  }

  function Creations(es: seq<Event>): nat
    decreases |es|
  {
    if es == [] then 0 else Creations(es[..|es| - 1]) + if es[|es| - 1].Create? then 1 else 0
  }

  /** Without a reconciliation only an allocation moves the counter, and it takes the number it moves past. */
  lemma StepCounter(r: NodeRows, e: Event)
    requires Sound(r) && r.stream.Some? && !e.Reconciled?
    ensures Apply(r, e).stream.Some?
    ensures Counter(Apply(r, e)) == Counter(r) + if e.Create? then 1 else 0
    ensures e.Create? ==> e.job in Apply(r, e).targets && Apply(r, e).targets[e.job].number == Counter(r)
  {
  }

  lemma {:induction false} CounterCounts(r: NodeRows, es: seq<Event>)
    requires Sound(r) && r.stream.Some? && AllowedPlay(r, es) && forall e :: e in es ==> !e.Reconciled?
    ensures Play(r, es).stream.Some? && Counter(Play(r, es)) == Counter(r) + Creations(es)
    decreases |es|
  {
    if es != [] {
      var front := es[..|es| - 1];
      CounterCounts(r, front);
      PlayForward(r, front);
      StepCounter(Play(r, front), es[|es| - 1]);
    }
  }

  /** The allocation with so many before it takes the next number plus that many. */
  lemma AllocationTakes(r: NodeRows, es: seq<Event>)
    requires Sound(r) && r.stream.Some? && AllowedPlay(r, es) && forall e :: e in es ==> !e.Reconciled?
    requires es != [] && es[|es| - 1].Create?
    ensures var job := es[|es| - 1].job;
      job in Play(r, es).targets && Play(r, es).targets[job].number == Counter(r) + Creations(es[..|es| - 1])
  {
    var front := es[..|es| - 1];
    CounterCounts(r, front);
    PlayForward(r, front);
    StepCounter(Play(r, front), es[|es| - 1]);
  }

  /** The reconciliation does not look at the agent's unfinished task: its sequence stays beyond reach of a new
      allocation exactly when the server still remembers it. Otherwise the allocation with as many others before
      it as there are numbers in between takes it, whatever happens among them short of another reconciliation. */
  lemma InProgressSequenceReuse(r: NodeRows, newId: StreamId, watermark: int, unfinished: int, es: seq<Event>)
    requires Sound(r) && r.stream.Some? && r.stream.value.control == Open && r.stream.value.id != ""
    requires watermark < unfinished
    requires var r1 := Reconcile(r, newId, r.stream.value.id, watermark);
      AllowedPlay(r1, es) && forall e :: e in es ==> !e.Reconciled?
    ensures var r1 := Reconcile(r, newId, r.stream.value.id, watermark);
      && (unfinished < Counter(r1) <==> unfinished < Counter(r))
      && (es != [] && es[|es| - 1].Create? && Counter(r1) + Creations(es[..|es| - 1]) == unfinished ==>
            es[|es| - 1].job in Play(r1, es).targets && Play(r1, es).targets[es[|es| - 1].job].number == unfinished)
  {
    ReconcileKeeps(r, newId, r.stream.value.id, watermark, 0);
    if es != [] && es[|es| - 1].Create? {
      AllocationTakes(Reconcile(r, newId, r.stream.value.id, watermark), es);
    }
  }

  /** An isolated node opens again only by the disposition of its last unknown outcome. */
  lemma OnlyDispositionOpens(r: NodeRows, e: Event)
    requires Sound(r) && r.stream.Some? && r.stream.value.control != Open
    requires Apply(r, e).stream.Some? && Apply(r, e).stream.value.control == Open
    ensures e.Disposed? && Disposable(r, e.job, e.resolution) && !UnknownRemains(Apply(r, e))
  {
  }

  // ---------------------------------------------------------------- statuses over a run

  lemma StepChangesLegally(r: NodeRows, e: Event, job: JobId)
    requires Allowed(r, e) && job in r.targets && job in Apply(r, e).targets
    ensures LegalChange(r.targets[job].status, Apply(r, e).targets[job].status)
  {
    match e {
      case Create(_, _, _, _) =>
      case Deliver(_, _, _) =>
      case StatusReported(j, status, version, now) =>
        if Commits(r, j, status) { ReportedTargets(r, j, status, version, now); }
      case RecordReported(_, _) =>
      case InProgressReported(_) =>
      case Reconciled(_, _, _) =>
      case QuarantineReported(_) =>
      case Cancelled(_, _) =>
      case Disposed(_, _, _) =>
      case Pruned(_) =>
    }
  }

  function History(r: NodeRows, es: seq<Event>, job: JobId): (h: seq<Status>)
    requires forall n :: 0 <= n <= |es| ==> job in Play(r, es[..n]).targets
    ensures |h| == |es| + 1
  {
    seq(|es| + 1, n requires 0 <= n <= |es| => Play(r, es[..n]).targets[job].status)
  }

  lemma {:induction false} AllowedPrefix(r: NodeRows, es: seq<Event>, n: nat)
    requires AllowedPlay(r, es) && n <= |es|
    ensures AllowedPlay(r, es[..n])
    decreases |es|
  {
    if n < |es| {
      AllowedPrefix(r, es[..|es| - 1], n);
      assert es[..|es| - 1][..n] == es[..n];
    } else {
      assert es[..n] == es;
    }
  }

  lemma NextStatusLegal(r: NodeRows, es: seq<Event>, job: JobId, n: nat)
    requires AllowedPlay(r, es) && n < |es|
    requires job in Play(r, es[..n]).targets && job in Play(r, es[..n + 1]).targets
    ensures LegalChange(Play(r, es[..n]).targets[job].status, Play(r, es[..n + 1]).targets[job].status)
  {
    AllowedPrefix(r, es, n + 1);
    assert es[..n + 1][..n] == es[..n];
    StepChangesLegally(Play(r, es[..n]), es[n], job);
  }

  /** While its row exists, a target changes status at most seven times between restores. */
  lemma StatusChangesBounded(r: NodeRows, es: seq<Event>, job: JobId)
    requires AllowedPlay(r, es)
    requires forall n :: 0 <= n <= |es| ==> job in Play(r, es[..n]).targets
    ensures Changes(History(r, es, job)) <= 7
  {
    var h := History(r, es, job);
    forall n | 0 <= n < |h| - 1
      ensures LegalChange(h[n], h[n + 1])
    {
      NextStatusLegal(r, es, job, n);
    }
    AtMostSevenChanges(h);
  }
}
