/**
 The rows the server keeps for one node (its command stream, its update targets
 by job, its cancel tombstones and sequence retirements) and the effect on them
 of every transaction of the command-stream protocol. A table whose primary key
 contains the node id is a family of such rows, one per node, and every
 transaction below touches the rows of one node only.
 */
module NodeTables {
  import opened Basics
  import opened Protocol
  import opened RetiredPrefix

  datatype Stream = Stream(id: StreamId, nextSeq: int, retired: int, control: Control)

  datatype Target = Target(
    status: Status, number: int, streamId: StreamId, delivery: Delivery, sha: Hash,
    updatedAt: int, reportedVersion: string, cancelIntentAt: int)
  {
    function At(column: Column): int {
      match column
      case ByNumber => number
      case ByAge => updatedAt
    }
  }

  /** The columns queries order by. */
  datatype Column = ByNumber | ByAge

  datatype NodeRows = NodeRows(
    stream: Option<Stream>, targets: map<JobId, Target>,
    tombstones: set<int>, retirements: set<int>)

  const EMPTY_ROWS := NodeRows(None, map[], {}, {})

  /** The sequences of targets in a terminal status. */
  function TerminalSeqs(r: NodeRows): set<int> {
    set j | j in r.targets && r.targets[j].number > 0 && Terminal(r.targets[j].status) :: r.targets[j].number
  }

  /** The sequences that are closed: terminal, cancelled by tombstone, or retired with their detail row. */
  function ClosedSeqs(r: NodeRows): set<int> {
    TerminalSeqs(r) + (set s | s in r.tombstones && s > 0) + (set s | s in r.retirements && s > 0)
  }

  function WithTarget(r: NodeRows, job: JobId, t: Target): NodeRows {
    r.(targets := r.targets[job := t])
  }

  function WithControl(r: NodeRows, c: Control): NodeRows {
    if r.stream.None? then r else r.(stream := Some(r.stream.value.(control := c)))
  }

  function StatusOf(r: NodeRows, job: JobId): Option<Status> {
    if job in r.targets then Some(r.targets[job].status) else None
  }

  /** Raise the stored watermark to the contiguous closed prefix. */
  function Advance(r: NodeRows): NodeRows {
    var w := Prefix(ClosedSeqs(r));
    if w == 0 || r.stream.None? then r
    else r.(stream := Some(r.stream.value.(retired := Max(r.stream.value.retired, w))))
  }

  /** Load the stream, creating it under a fresh id when the node has none. */
  function EnsureStream(r: NodeRows, newId: StreamId): (r': NodeRows)
    ensures r'.stream.Some?
  {
    match r.stream
    case Some(st) => if st.nextSeq <= 0 then r.(stream := Some(st.(nextSeq := st.retired + 1))) else r
    case None => r.(stream := Some(Stream(newId, 1, 0, Open)))
  }

  /** The reconciliation of a handshake or of a sequence-gap report. */
  function Reconcile(r: NodeRows, newId: StreamId, agentStream: StreamId, watermark: int): (r': NodeRows)
    ensures r'.stream.Some?
  {
    var r0 := EnsureStream(r, newId);
    var st := r0.stream.value;
    if st.control != Open then r0
    else if agentStream != "" && agentStream != st.id then WithControl(r0, Quarantined)
    else
      var next := if agentStream != "" && st.nextSeq <= watermark then watermark + 1 else st.nextSeq;
      var retired := Max(Max(st.retired, watermark), Prefix(ClosedSeqs(r0)));
      r0.(stream := Some(st.(nextSeq := next, retired := retired)))
  }

  /** A local quarantine reported by the agent, stored before the reconciliation. */
  function QuarantineNode(r: NodeRows, newId: StreamId): NodeRows {
    WithControl(EnsureStream(r, newId), Quarantined)
  }

  /** Allocate the next sequence to a new target. */
  function Allocate(r: NodeRows, job: JobId, sha: Hash, newId: StreamId, now: int): NodeRows {
    var r0 := EnsureStream(r, newId);
    var st := r0.stream.value;
    var t := Target(Pending, st.nextSeq, st.id, DeliveryPending, sha, now, "", 0);
    WithTarget(r0.(stream := Some(st.(nextSeq := st.nextSeq + 1))), job, t)
  }

  function RecordDelivery(r: NodeRows, job: JobId, d: Delivery, now: int): NodeRows {
    if job !in r.targets then r
    else WithTarget(r, job, r.targets[job].(delivery := d, updatedAt := now))
  }

  predicate Commits(r: NodeRows, job: JobId, status: Status) {
    job in r.targets && CanMove(r.targets[job].status, status)
  }

  /** The rows after a committed report of an execution status. */
  function Report(r: NodeRows, job: JobId, status: Status, version: string, now: int): NodeRows
    requires job in r.targets
  {
    var t := r.targets[job];
    var r1 := WithTarget(r, job, t.(
      status := status, updatedAt := now,
      reportedVersion := if version != "" then version else t.reportedVersion));
    var r2 := if status == Unknown && t.number > 0 then WithControl(r1, Blocked) else r1;
    if Terminal(status) && t.number > 0 then Advance(r2) else r2
  }

  /** A report is committed when it is legal, and otherwise ignored. */
  function Transition(r: NodeRows, job: JobId, status: Status, version: string, now: int): NodeRows {
    if Commits(r, job, status) then Report(r, job, status, version, now) else r
  }

  predicate RecordApplies(r: NodeRows, rec: RecordReport) {
    rec.number > 0 && rec.jobId != "" && rec.jobId in r.targets
    && r.targets[rec.jobId].number == rec.number && CanMove(r.targets[rec.jobId].status, rec.status)
  }

  /** One agent record applied after a handshake; the stored watermark is not advanced here. */
  function BackfillRecord(r: NodeRows, rec: RecordReport, now: int): NodeRows {
    if !RecordApplies(r, rec) then r
    else
      var r1 := WithTarget(r, rec.jobId, r.targets[rec.jobId].(
        status := rec.status, updatedAt := now, reportedVersion := rec.reportedVersion));
      if rec.status == Unknown then WithControl(r1, Blocked) else r1
  }

  function BackfillRecords(r: NodeRows, records: seq<RecordReport>, now: int): NodeRows
    decreases |records|
  {
    if records == [] then r
    else BackfillRecord(BackfillRecords(r, records[..|records| - 1], now), records[|records| - 1], now)
  }

  predicate InProgressApplies(r: NodeRows, ip: InProgressReport) {
    ip.number > 0 && ip.jobId != "" && ip.jobId in r.targets
    && r.targets[ip.jobId].number == ip.number && CanMove(r.targets[ip.jobId].status, ip.stage)
  }

  function BackfillInProgress(r: NodeRows, ip: Option<InProgressReport>): NodeRows {
    if ip.None? || !InProgressApplies(r, ip.value) then r
    else WithTarget(r, ip.value.jobId, r.targets[ip.value.jobId].(status := ip.value.stage))
  }

  function Backfill(r: NodeRows, ip: Option<InProgressReport>, records: seq<RecordReport>, now: int): NodeRows {
    BackfillInProgress(BackfillRecords(r, records, now), ip)
  }

  /** A persistent cancel intent closes the sequence. */
  function Tombstone(r: NodeRows, job: JobId, number: int, now: int): NodeRows {
    var r1 := r.(tombstones := r.tombstones + {number});
    var r2 := if job in r.targets then WithTarget(r1, job, r.targets[job].(cancelIntentAt := now)) else r1;
    Advance(r2)
  }

  predicate UnknownRemains(r: NodeRows) {
    exists j :: j in r.targets && r.targets[j].status == Unknown
  }

  predicate Disposable(r: NodeRows, job: JobId, resolution: Status) {
    Resolution(resolution) && job in r.targets && r.targets[job].status == Unknown
  }

  /** The operator's disposition of an unknown outcome. */
  function ResolveUnknown(r: NodeRows, job: JobId, resolution: Status, now: int): NodeRows {
    if !Disposable(r, job, resolution) then r
    else
      var r1 := WithTarget(r, job, r.targets[job].(status := resolution, updatedAt := now));
      if UnknownRemains(r1) then r1 else WithControl(r1, Open)
  }

  /** Delete a detail row and retire its sequence. */
  function WithoutRow(r: NodeRows, job: JobId, number: int): NodeRows {
    var r1 := if number > 0 then r.(retirements := r.retirements + {number}) else r;
    r1.(targets := r1.targets - {job})
  }

  function PruneRow(r: NodeRows, job: JobId, number: int): NodeRows {
    Advance(WithoutRow(r, job, number))
  }

  /** Rows that retention never deletes. */
  predicate Protected(t: Target) {
    InProgress(t.status) || t.status == Unknown
  }
}
